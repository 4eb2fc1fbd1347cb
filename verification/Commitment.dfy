/** Heartbeats, their replies and the commit index, in every run: a leader's commit index moves only to
    an entry of its own term that a majority held, a follower's never passes what the leader sent it,
    and replies to requests of an older term change nothing. */
module Commitment {
  import opened RaftTypes
  import opened RaftNode
  import opened NodeInvariants
  import opened RaftCluster
  import opened ElectionSafety
  import opened EntryIdentity
  import opened Quorums

  // ---------- the invariant ----------

  ghost predicate Replicating(c: Cluster)
  {
    && Requests(c.re.beats)
    && Answers(c.re)
    && Holdings(|c.nodes|, c.re)
    && HoldersKnown(c.re.holders, c.past.created)
    && Counting(c.re)
    && Committed(|c.nodes|, c.re)
    && AllSteady(c.nodes)
  }

  ghost predicate Requests(beats: seq<Beat>)
  {
    forall r, p | 0 <= r < |beats| && p in beats[r].sent :: RequestOk(beats[r], beats[r].sent[p])
  }

  predicate RequestOk(b: Beat, args: AppendArgs)
  {
    && args.term == b.term && args.End() == b.last && EndTerm(args) == b.lastTerm
    && args.leaderCommit <= args.End()
    && (args.prevIndex == 0 ==> args.prevTerm == 0)
  }

  /** A newer term than the request's comes only with the "no update" marker. */
  predicate AnswerOk(b: Beat, reply: AppendReply)
  {
    && reply.term >= b.term
    && (reply.term > b.term ==> !reply.success && reply.updateNext == NO_UPDATE)
    && (!reply.success ==> reply.updateNext == NO_UPDATE || reply.updateNext >= 1)
  }

  ghost predicate Answers(re: Replication)
  {
    forall k | k in re.replies ::
      && k.round < |re.beats| && AnswerOk(re.beats[k.round], re.replies[k])
      && (re.replies[k].success ==> k in re.holders)
  }

  /** The node holds an entry of this term at this index, in its log or as its snapshot boundary. */
  predicate HoldsAt(n: Node, index: nat, term: nat)
  {
    n.snapIndex <= index <= n.Last() && n.TermAt(index) == term
  }

  ghost predicate Holdings(n: nat, re: Replication)
  {
    && (forall k | k in re.holders ::
      && k.round < |re.beats| && k.peer < n
      && HoldsAt(re.holders[k], re.beats[k.round].last, re.beats[k.round].lastTerm))
    && (forall r | 0 <= r < |re.beats| :: AppendKey(r, re.beats[r].leader) in re.holders)
  }

  ghost predicate HoldersKnown(holders: map<AppendKey, Node>, created: map<(nat, nat), Op>)
  {
    forall k | k in holders :: holders[k].Valid() && AllKnown(holders[k].log, created)
  }

  ghost predicate Counting(re: Replication)
  {
    forall r | r in re.replicas ::
      && r < |re.beats|
      && (forall p | p in re.replicas[r] ::
        p != re.beats[r].leader && AppendKey(r, p) in re.holders && AppendKey(r, p) in re.closed)
      && (r in re.counts ==> re.counts[r] <= |re.replicas[r]| + 1)
  }

  ghost predicate Committed(n: nat, re: Replication)
  {
    forall m | m in re.commits :: CommitOk(n, re.beats, re.holders, m)
  }

  /** The commit is backed by one heartbeat whose end a majority, the leader among them, held. */
  ghost predicate CommitOk(n: nat, beats: seq<Beat>, holders: map<AppendKey, Node>, m: Commit)
  {
    && m.round < |beats| && beats[m.round].term == m.term
    && beats[m.round].last == m.index && beats[m.round].lastTerm == m.term
    && IsQuorum(m.quorum, n) && beats[m.round].leader in m.quorum
    && forall v | v in m.quorum :: AppendKey(m.round, v) in holders
  }

  /** A leader never asks for index 0 or less; the only assertion that can have stopped a node is
      the one on the previous index of a request. */
  predicate Steady(n: Node)
  {
    && n.halted in {None, Some(PrevIndexInLog)}
    && (n.status == Leader ==> forall p | 0 <= p < |n.nextIndex| :: n.nextIndex[p] >= 1)
  }

  ghost predicate AllSteady(nodes: seq<Node>)
  {
    forall i | 0 <= i < |nodes| :: Steady(nodes[i])
  }

  // ---------- one heartbeat ----------

  lemma BeatRequests(n: Node)
    requires n.Valid()
    ensures forall p | p in BeatOf(n).sent :: RequestOk(BeatOf(n), BeatOf(n).sent[p])
    ensures HoldsAt(n, BeatOf(n).last, BeatOf(n).lastTerm)
  {
    forall p | p in BeatOf(n).sent ensures RequestOk(BeatOf(n), BeatOf(n).sent[p]) {
      BeatRequest(n, p);
    }
  }

  lemma BeatRequest(n: Node, p: nat)
    requires n.Valid() && p in BeatOf(n).sent
    ensures RequestOk(BeatOf(n), BeatOf(n).sent[p])
  {
    var args := AppendArgsFor(n, p);
    assert args.entries == [] <==> args.prevIndex == n.Last();
  }

  lemma BeatAdds(n: nat, re: Replication, node: Node)
    requires Requests(re.beats) && Answers(re) && Holdings(n, re) && Counting(re) && Committed(n, re)
    requires node.Valid() && node.id < n
    ensures var re' := Sent(re, node);
      Requests(re'.beats) && Answers(re') && Holdings(n, re') && Counting(re') && Committed(n, re')
  {
    BeatAddsRequests(re.beats, node);
    BeatRequests(node);
    var b, re' := BeatOf(node), Sent(re, node);
    BeatAddsCommitted(n, re, re');
    assert b.leader == node.id;
    hide *;
    BeatAddsRest(n, re, re', b, node);
  }

  lemma BeatAddsRest(n: nat, re: Replication, re': Replication, b: Beat, node: Node)
    requires Answers(re) && Holdings(n, re) && Counting(re)
    requires b.leader == node.id < n && HoldsAt(node, b.last, b.lastTerm)
    requires re' == re.(beats := re.beats + [b], counts := re.counts[|re.beats| := 1],
      replicas := re.replicas[|re.beats| := {}], holders := re.holders[AppendKey(|re.beats|, node.id) := node])
    ensures Answers(re') && Holdings(n, re') && Counting(re')
  {
    hide HoldsAt, AnswerOk;
    assert forall r | 0 <= r < |re.beats| :: re'.beats[r] == re.beats[r];
    assert AppendKey(|re.beats|, node.id) !in re.holders;
  }

  lemma BeatAddsRequests(beats: seq<Beat>, node: Node)
    requires Requests(beats) && node.Valid()
    ensures Requests(beats + [BeatOf(node)])
  {
    BeatRequests(node);
  }

  lemma BeatAddsCommitted(n: nat, re: Replication, re': Replication)
    requires Committed(n, re) && re'.commits == re.commits
    requires |re.beats| <= |re'.beats| && re'.beats[..|re.beats|] == re.beats
    requires forall k | k in re.holders :: k in re'.holders
    ensures Committed(n, re')
  {
    forall m | m in re'.commits ensures CommitOk(n, re'.beats, re'.holders, m) {
      assert CommitOk(n, re.beats, re.holders, m);
      assert re'.beats[m.round] == re'.beats[..|re.beats|][m.round];
    }
  }

  lemma HeartBeatKeeps(c: Cluster, i: nat)
    requires Wf(c) && Elected(c) && Traced(c) && Replicating(c) && Alive(c, i)
    ensures Replicating(HeartBeatStep(c, i))
  {
    hide Elected, Wf, Origins, BeatsKnown, BeatOf, FirstBeatFault;
    hide Requests, Answers, Holdings, Counting, Committed;
    var n := c.nodes[i];
    NodeAt(c, i);
    if n.status == Leader {
      BeatAdds(|c.nodes|, c.re, n);
      assert AllKnown(n.log, c.past.created);
      assert Steady(n);
      OnlyHighFaults(n, 0);
    }
  }

  lemma OnlyHighFaults(n: Node, p: nat)
    requires n.Valid() && forall q | 0 <= q < n.peers :: n.nextIndex[q] >= 1
    ensures FirstBeatFault(n, p) in {None, Some(PrevIndexInLog)}
    decreases n.peers - p
  {
  }

  // ---------- one delivery ----------

  lemma HintPositive(n: Node, args: AppendArgs)
    requires n.Valid() && (args.prevIndex == 0 ==> args.prevTerm == 0) && !Accepts(n, args) && args.term >= n.term
    ensures Hint(n, args.prevIndex) >= 1
  {
    if InWindow(n, args) {
      assert args.prevIndex >= 1;
      BackOffBounds(n, args.prevIndex, n.TermAt(args.prevIndex), args.prevIndex);
    }
  }

  lemma AnswerFits(n: Node, args: AppendArgs, b: Beat)
    requires n.Valid() && Contiguous(args.entries, args.prevIndex) && RequestOk(b, args) && n.halted.None?
    requires AppendEntries(n, args).0.halted.None?
    ensures AnswerOk(b, AppendEntries(n, args).1)
    ensures AppendEntries(n, args).1.success ==> HoldsAt(AppendEntries(n, args).0, b.last, b.lastTerm)
    ensures !AppendEntries(n, args).1.success || AppendEntries(n, args).0.commitIndex <= Max(n.commitIndex, args.End())
  {
    hide Hint, Absorb, Contiguous;
    if args.term >= n.term && Accepts(n, args) {
      AbsorbedEnd(Followed(n, args), args);
    } else if args.term >= n.term {
      HintPositive(Followed(n, args), args);
    }
  }

  lemma AbsorbedEnd(m: Node, args: AppendArgs)
    requires m.Valid() && InWindow(m, args) && m.TermAt(args.prevIndex) == args.prevTerm
    requires args.leaderCommit <= args.End()
    ensures HoldsAt(Absorb(m, args), args.End(), EndTerm(args))
    ensures Absorb(m, args).commitIndex <= Max(m.commitIndex, args.End())
  {
  }

  lemma DeliverAppendKeeps(c: Cluster, k: AppendKey)
    requires Wf(c) && Traced(c) && Replicating(c) && CanDeliverAppend(c, k)
    ensures Replicating(DeliverAppendStep(c, k))
  {
    hide Wf, Requests, Answers, Holdings, HoldersKnown, Counting, Committed, Traced, AppendEntries, AnswerOk;
    hide RequestOk, HoldsAt, AllKnown, AllSteady;
    var n, b, c' := c.nodes[k.peer], c.re.beats[k.round], DeliverAppendStep(c, k);
    var args := b.sent[k.peer];
    var (n', reply) := AppendEntries(n, args);
    DeliverFacts(c, k);
    AnswerFits(n, args, b);
    AppendKnown(n, args, c.past.created);
    HolderAdded(|c.nodes|, c.re, c'.re);
    AnswerAdded(|c.nodes|, c.re, c'.re, k, reply, n', c.past.created);
    SteadyMoves(c.nodes, k.peer, n');
  }

  lemma DeliverFacts(c: Cluster, k: AppendKey)
    requires Wf(c) && Traced(c) && Replicating(c) && CanDeliverAppend(c, k)
    ensures var n, b := c.nodes[k.peer], c.re.beats[k.round];
      var args := b.sent[k.peer]; var n' := AppendEntries(n, args).0;
      && n.Valid() && n'.Valid() && n.halted.None? && n'.halted.None?
      && Contiguous(args.entries, args.prevIndex) && RequestOk(b, args) && k.peer != b.leader
      && AllKnown(n.log, c.past.created) && AllKnown(args.entries, c.past.created)
      && DeliverAppendStep(c, k).nodes == c.nodes[k.peer := n']
      && (Steady(n) ==> Steady(n'))
  {
    hide AppendEntries, Origins, BeatsKnown, Answers, Holdings, Counting, Committed, AllSteady, HoldersKnown, RequestOk;
    hide NodeInvariants.Keeps, AllKnown;
    DeliverAppendMoves(c, k);
    SentKnown(c, k);
    NodeAt(c, k.peer);
    assert WfBeat(c.nodes, c.re.beats[k.round]);
    AppendKnown(c.nodes[k.peer], c.re.beats[k.round].sent[k.peer], c.past.created);
    AppendEntriesKeeps(c.nodes[k.peer], c.re.beats[k.round].sent[k.peer]);
    SameNext(c.nodes[k.peer], c.re.beats[k.round].sent[k.peer]);
  }

  lemma SameNext(n: Node, args: AppendArgs)
    requires AppendEntries(n, args).0.halted.None?
    ensures Steady(n) ==> Steady(AppendEntries(n, args).0)
  {
  }

  lemma AnswerAdded(n: nat, re: Replication, re': Replication, k: AppendKey, reply: AppendReply, holder: Node,
                    created: map<(nat, nat), Op>)
    requires Answers(re) && Holdings(n, re) && HoldersKnown(re.holders, created)
    requires k.round < |re.beats| && k.peer < n && AnswerOk(re.beats[k.round], reply)
    requires re' == re.(replies := re.replies[k := reply],
                        holders := if reply.success then re.holders[k := holder] else re.holders)
    requires reply.success ==> HoldsAt(holder, re.beats[k.round].last, re.beats[k.round].lastTerm)
    requires reply.success ==> holder.Valid() && AllKnown(holder.log, created)
    ensures Answers(re') && Holdings(n, re') && HoldersKnown(re'.holders, created)
  {
    hide HoldsAt, AnswerOk, AllKnown, Node.Valid;
  }

  lemma HolderAdded(n: nat, re: Replication, re': Replication)
    requires Counting(re) && Committed(n, re)
    requires re' == re.(replies := re'.replies, holders := re'.holders)
    requires forall k | k in re.holders :: k in re'.holders
    ensures Counting(re') && Committed(n, re')
  {
    forall m | m in re'.commits ensures CommitOk(n, re'.beats, re'.holders, m) {
      assert CommitOk(n, re.beats, re.holders, m);
    }
  }

  // ---------- one reply ----------

  lemma AppendAnsweredKeeps(c: Cluster, k: AppendKey)
    requires Wf(c) && Replicating(c) && CanHandleAppend(c, k)
    ensures Replicating(AppendAnsweredStep(c, k))
    ensures AppendAnsweredStep(c, k).nodes[c.re.beats[k.round].leader].halted.None?
  {
    hide Wf, Requests, Answers, Holdings, Counting, Committed, AppendReplied, RequestOk, AnswerOk;
    var b, c' := c.re.beats[k.round], AppendAnsweredStep(c, k);
    ReplyFacts(c, k);
    var n, args, reply := c.nodes[b.leader], b.sent[k.peer], c.re.replies[k];
    var (n', count) := AppendReplied(n, k.peer, args, c.re.counts[k.round], reply);
    ReplyOutcome(n, k.peer, args, c.re.counts[k.round], reply, b);
    var counts := CountsReply(n, reply);
    CountAdds(c.re, k, count, counts);
    var re := Counted(c.re, k, count, counts);
    if n'.commitIndex > n.commitIndex {
      CommitAdds(|c.nodes|, c.re, k, count, n.term);
      assert c'.re == re.(commits := re.commits + {Commit(n.term, b.last, k.round, re.replicas[k.round] + {b.leader})});
      CountingSame(re, c'.re);
    } else {
      assert c'.re == re;
    }
    PartsSame(|c.nodes|, c.re, c'.re);
    SteadyMoves(c.nodes, b.leader, n');
  }

  predicate CountsReply(n: Node, reply: AppendReply)
  {
    reply.success && reply.term == n.term && n.status == Leader
  }

  function Counted(re: Replication, k: AppendKey, count: nat, counts: bool): Replication
    requires k.round in re.replicas
  {
    var had := re.replicas[k.round];
    re.(closed := re.closed + {k}, counts := re.counts[k.round := count],
        replicas := re.replicas[k.round := if counts then had + {k.peer} else had])
  }

  lemma ReplyFacts(c: Cluster, k: AppendKey)
    requires Wf(c) && Replicating(c) && CanHandleAppend(c, k)
    ensures var b := c.re.beats[k.round];
      && b.leader < |c.nodes| && k.peer in b.sent && k.peer < |c.nodes| && k.peer != b.leader
      && var n := c.nodes[b.leader]; var args := b.sent[k.peer]; var reply := c.re.replies[k];
      && n.Valid() && n.peers == |c.nodes| && n.halted.None? && b.last <= n.Last()
      && RequestOk(b, args) && AnswerOk(b, reply) && (reply.success ==> k in c.re.holders)
      && k.round in c.re.replicas
  {
    assert WfBeat(c.nodes, c.re.beats[k.round]);
  }

  /** The counter, the commit index and the assertions, for a reply to a request that was well formed. */
  lemma ReplyOutcome(n: Node, p: nat, args: AppendArgs, count: nat, reply: AppendReply, b: Beat)
    requires n.Valid() && p < n.peers && n.halted.None? && b.last <= n.Last()
    requires RequestOk(b, args) && AnswerOk(b, reply)
    ensures var (n', count') := AppendReplied(n, p, args, count, reply);
      && n'.halted.None? && |n'.nextIndex| == |n.nextIndex|
      && (CountsReply(n, reply) ==> n.term == b.term)
      && count' <= (if CountsReply(n, reply) then count + 1 else count)
      && (n'.commitIndex > n.commitIndex ==>
        CountsReply(n, reply) && n'.commitIndex == b.last && b.lastTerm == n.term && count + 1 >= n.Majority())
      && (Steady(n) ==> Steady(n'))
  {
  }

  lemma CountAdds(re: Replication, k: AppendKey, count: nat, counts: bool)
    requires Counting(re) && k.round in re.counts && k.round in re.replicas && k !in re.closed
    requires counts ==> k in re.holders && k.peer != re.beats[k.round].leader
    requires count <= if counts then re.counts[k.round] + 1 else re.counts[k.round]
    ensures Counting(Counted(re, k, count, counts))
  {
    assert AppendKey(k.round, k.peer) == k;
    assert k.peer !in re.replicas[k.round];
    assert |re.replicas[k.round] + {k.peer}| == |re.replicas[k.round]| + 1;
  }

  lemma CommitAdds(n: nat, re: Replication, k: AppendKey, count: nat, term: nat)
    requires Counting(re) && Committed(n, re) && Holdings(n, re)
    requires k.round in re.counts && k.round in re.replicas && k.round < |re.beats|
    requires k in re.holders && k !in re.closed && k.peer != re.beats[k.round].leader
    requires re.counts[k.round] + 1 >= n / 2 + 1
    requires term == re.beats[k.round].term == re.beats[k.round].lastTerm
    ensures var b := re.beats[k.round]; var re' := Counted(re, k, count, true);
      CommitOk(n, re.beats, re.holders, Commit(term, b.last, k.round, re'.replicas[k.round] + {b.leader}))
  {
    var b, had := re.beats[k.round], re.replicas[k.round];
    assert AppendKey(k.round, k.peer) == k && k.peer !in had;
    assert |had + {k.peer} + {b.leader}| == |had| + 2;
    forall v | v in had + {k.peer} + {b.leader} ensures AppendKey(k.round, v) in re.holders && v < n {
    }
  }

  lemma PartsSame(n: nat, re: Replication, re': Replication)
    requires Requests(re.beats) && Answers(re) && Holdings(n, re) && Committed(n, re)
    requires re'.beats == re.beats && re'.replies == re.replies && re'.holders == re.holders
    requires re'.commits != re.commits ==>
      exists m :: re'.commits == re.commits + {m} && CommitOk(n, re.beats, re.holders, m)
    ensures Requests(re'.beats) && Answers(re') && Holdings(n, re') && Committed(n, re')
  {
  }

  lemma CountingSame(re: Replication, re': Replication)
    requires Counting(re) && re' == re.(commits := re'.commits)
    ensures Counting(re')
  {
  }

  lemma SteadyMoves(nodes: seq<Node>, i: nat, n: Node)
    requires AllSteady(nodes) && i < |nodes| && (Steady(nodes[i]) ==> Steady(n))
    ensures AllSteady(nodes[i := n])
  {
  }

  // ---------- the other steps ----------

  lemma ElectSteady(n: Node)
    ensures Steady(n) ==> Steady(DoElection(n)) && Steady(Restart(n))
  {
  }

  lemma VoteSteady(n: Node, args: VoteArgs)
    ensures Steady(n) ==> Steady(RequestVote(n, args).0)
  {
  }

  lemma CrownSteady(n: Node, count: nat, reply: VoteReply)
    requires VoteReplied(n, count, reply).0.halted.None?
    ensures Steady(n) ==> Steady(VoteReplied(n, count, reply).0)
  {
  }

  lemma InstallSteady(n: Node, args: InstallArgs)
    ensures Steady(n) ==> Steady(InstallSnapshot(n, args).0)
  {
  }

  lemma SnapshotSteady(n: Node, p: nat, args: InstallArgs, replyTerm: nat)
    requires n.Valid() && p < n.peers
    ensures Steady(n) ==> Steady(SnapshotReplied(n, p, args, replyTerm))
  {
  }

  lemma OwnSteady(n: Node, command: Op, index: int)
    requires n.Valid()
    ensures Steady(n) ==> Steady(Start(n, command)) && Steady(ApplyLogs(n).0) && Steady(Snapshot(n, index))
  {
  }

  lemma StepSteady(c: Cluster, e: Event)
    requires Wf(c) && Elected(c) && AllSteady(c.nodes) && !e.HeartBeat? && !e.DeliverAppend? && !e.AppendAnswered?
    ensures AllSteady(Step(c, e).nodes)
  {
    hide Elected, WfVotes, WfBeats, WfInstalls, Contiguous, Node.Durable, AllSteady, Steady;
    hide DoElection, RequestVote, VoteReplied, Start, Snapshot, InstallSnapshot, SnapshotReplied, ApplyLogs, Restart;
    match e
    case Elect(i) => if Alive(c, i) && c.nodes[i].status != Leader {
      ElectSteady(c.nodes[i]);
      SteadyMoves(c.nodes, i, DoElection(c.nodes[i]));
    }
    case DeliverVote(k) => if CanDeliverVote(c, k) {
      VoteSteady(c.nodes[k.voter], c.el.ballots[k.ballot]);
      SteadyMoves(c.nodes, k.voter, RequestVote(c.nodes[k.voter], c.el.ballots[k.ballot]).0);
    }
    case VoteAnswered(k) => if CanHandleVote(c, k) { VoteAnsweredSteady(c, k); }
    case ClientStart(i, command) => if Alive(c, i) && c.nodes[i].status == Leader {
      OwnSteady(c.nodes[i], command, 0);
      SteadyMoves(c.nodes, i, Start(c.nodes[i], command));
    }
    case TakeSnapshot(i, index) => if Alive(c, i) {
      OwnSteady(c.nodes[i], Op("", "", "", "", 0), index);
      SteadyMoves(c.nodes, i, Snapshot(c.nodes[i], index));
    }
    case SendSnapshot(i, p) =>
    case DeliverInstall(k) => if CanDeliverInstall(c, k) {
      var call := c.sn.installs[k];
      InstallSteady(c.nodes[call.peer], call.args);
      SteadyMoves(c.nodes, call.peer, InstallSnapshot(c.nodes[call.peer], call.args).0);
    }
    case InstallAnswered(k) => if CanHandleInstall(c, k) { InstallAnsweredSteady(c, k); }
    case Apply(i) => if Alive(c, i) {
      OwnSteady(c.nodes[i], Op("", "", "", "", 0), 0);
      SteadyMoves(c.nodes, i, ApplyLogs(c.nodes[i]).0);
    }
    case Crash(i) => if i < |c.nodes| {
      ElectSteady(c.nodes[i]);
      SteadyMoves(c.nodes, i, Restart(c.nodes[i]));
    }
  }

  lemma VoteAnsweredSteady(c: Cluster, k: VoteKey)
    requires Wf(c) && Elected(c) && AllSteady(c.nodes) && CanHandleVote(c, k)
    ensures AllSteady(VoteAnsweredStep(c, k).nodes)
  {
    hide Wf, Elected, VoteReplied, Steady, AllSteady;
    var i, count := k.ballot.candidate, c.el.counts[k.ballot];
    VoteAnsweredKeeps(c, k);
    VoteAnsweredShape(c, k);
    CrownSteady(c.nodes[i], count, c.el.replies[k]);
    SteadyMoves(c.nodes, i, VoteReplied(c.nodes[i], count, c.el.replies[k]).0);
  }

  lemma InstallAnsweredSteady(c: Cluster, k: nat)
    requires Wf(c) && AllSteady(c.nodes) && CanHandleInstall(c, k)
    ensures AllSteady(InstallAnsweredStep(c, k).nodes)
  {
    hide Steady, AllSteady, SnapshotReplied;
    var call := c.sn.installs[k];
    SnapshotSteady(c.nodes[call.sender], call.peer, call.args, c.sn.replies[k]);
    SteadyMoves(c.nodes, call.sender, SnapshotReplied(c.nodes[call.sender], call.peer, call.args, c.sn.replies[k]));
  }

  lemma OtherShape(c: Cluster, e: Event)
    requires Wf(c) && !e.HeartBeat? && !e.DeliverAppend? && !e.AppendAnswered?
    ensures var re' := Step(c, e).re;
      && re' == c.re.(counts := re'.counts)
      && forall r | r in re'.counts :: r in c.re.counts && re'.counts[r] == c.re.counts[r]
  {
    hide WfNodes, WfVotes, WfBeats, WfInstalls;
  }

  lemma OtherKeeps(n: nat, re: Replication, re': Replication, created: map<(nat, nat), Op>,
                   created': map<(nat, nat), Op>)
    requires Requests(re.beats) && Answers(re) && Holdings(n, re) && Counting(re) && Committed(n, re)
    requires HoldersKnown(re.holders, created) && CreatedGrow(created, created')
    requires re' == re.(counts := re'.counts)
    requires forall r | r in re'.counts :: r in re.counts && re'.counts[r] == re.counts[r]
    ensures Requests(re'.beats) && Answers(re') && Holdings(n, re') && Counting(re') && Committed(n, re')
    ensures HoldersKnown(re'.holders, created')
  {
    forall k | k in re.holders ensures AllKnown(re.holders[k].log, created') {
      assert AllKnown(re.holders[k].log, created);
    }
  }

  lemma StepKeepsReplicating(c: Cluster, e: Event)
    requires Wf(c) && Elected(c) && Traced(c) && Replicating(c)
    ensures Replicating(Step(c, e))
  {
    hide Wf, Elected, Traced, Requests, Answers, Holdings, HoldersKnown, Counting, Committed, AllSteady;
    match e
    case HeartBeat(i) => if Alive(c, i) { HeartBeatKeeps(c, i); }
    case DeliverAppend(k) => if CanDeliverAppend(c, k) { DeliverAppendKeeps(c, k); }
    case AppendAnswered(k) => if CanHandleAppend(c, k) { AppendAnsweredKeeps(c, k); }
    case _ =>
      hide Step;
      OtherShape(c, e);
      StepKeepsTraced(c, e);
      StepSteady(c, e);
      OtherKeeps(|c.nodes|, c.re, Step(c, e).re, c.past.created, Step(c, e).past.created);
  }

  lemma {:induction false} RunReplicating(n: nat, events: seq<Event>)
    ensures Replicating(Exec(Init(n), events))
  {
    if events == [] {
    } else {
      hide Wf, Elected, Traced, Replicating, Step, Init;
      RunReplicating(n, events[..|events| - 1]);
      RunElected(n, events[..|events| - 1]);
      RunTraced(n, events[..|events| - 1]);
      StepKeepsReplicating(Exec(Init(n), events[..|events| - 1]), events[|events| - 1]);
    }
  }

  lemma AtReplicating(n: nat, events: seq<Event>, k: nat)
    requires k <= |events|
    ensures Replicating(At(n, events, k))
  {
    RunReplicating(n, events[..k]);
  }

  // ---------- what it means ----------

  /** Of the assertions that one node cannot discharge alone, none but the one on the previous
      index of a request ever fails, in any run. */
  lemma OnlyOneAssertionCanFail(n: nat, events: seq<Event>, k: nat, i: nat)
    requires k <= |events| && i < n
    ensures At(n, events, k).nodes[i].halted in {None, Some(PrevIndexInLog)}
  {
    hide Wf, At;
    AtReplicating(n, events, k);
    assert Steady(At(n, events, k).nodes[i]);
  }

  function KnownCommand(created: map<(nat, nat), Op>, index: nat, term: nat): Op
  {
    if (index, term) in created then created[(index, term)] else Op("", "", "", "", 0)
  }

  lemma MovedCommit(c: Cluster, k: AppendKey) returns (m: Commit)
    requires Wf(c) && Replicating(c) && CanHandleAppend(c, k)
    requires c.re.beats[k.round].leader < |c.nodes|
    requires var i := c.re.beats[k.round].leader; AppendAnsweredStep(c, k).nodes[i].commitIndex > c.nodes[i].commitIndex
    ensures m in AppendAnsweredStep(c, k).re.commits && m.round == k.round
    ensures var i := c.re.beats[k.round].leader;
      m.term == c.nodes[i].term && m.index == AppendAnsweredStep(c, k).nodes[i].commitIndex
  {
    assert WfBeat(c.nodes, c.re.beats[k.round]);
    var re, i := AppendAnsweredStep(c, k).re, c.re.beats[k.round].leader;
    m := Commit(c.nodes[i].term, AppendAnsweredStep(c, k).nodes[i].commitIndex, k.round, re.replicas[k.round] + {i});
  }

  /** A commit index learned from a leader stays within what its request covered. */
  lemma FollowerCommitBounded(n: nat, events: seq<Event>, j: nat, key: AppendKey)
    requires j <= |events| && CanDeliverAppend(At(n, events, j), key)
    ensures var c := At(n, events, j); var args := c.re.beats[key.round].sent[key.peer];
      var (m, reply) := AppendEntries(c.nodes[key.peer], args);
      m.commitIndex != c.nodes[key.peer].commitIndex ==> reply.success && m.commitIndex <= args.End() <= m.Last()
  {
    hide At, Elected;
    var c := At(n, events, j);
    AtReplicating(n, events, j);
    AtTraced(n, events, j);
    DeliverFacts(c, key);
    CommitWithin(c.nodes[key.peer], c.re.beats[key.round].sent[key.peer]);
  }

  lemma CommitWithin(n: Node, args: AppendArgs)
    requires n.Valid() && args.leaderCommit <= args.End()
    ensures var (m, reply) := AppendEntries(n, args);
      m.commitIndex != n.commitIndex ==> reply.success && m.commitIndex <= args.End() <= m.Last()
  {
  }

  /** A reply to a request of an older term leaves next, match and commit index and the count of
      successes as they are. */
  lemma StaleReplyChangesNothing(n: nat, events: seq<Event>, j: nat, key: AppendKey)
    requires j <= |events| && CanHandleAppend(At(n, events, j), key)
    requires At(n, events, j).re.beats[key.round].leader < n
    requires var c := At(n, events, j); c.nodes[c.re.beats[key.round].leader].term > c.re.beats[key.round].term
    ensures var c := At(n, events, j); var c', i := AppendAnsweredStep(c, key), c.re.beats[key.round].leader;
      && c'.nodes[i].nextIndex == c.nodes[i].nextIndex && c'.nodes[i].matchIndex == c.nodes[i].matchIndex
      && c'.nodes[i].commitIndex == c.nodes[i].commitIndex && c'.re.counts[key.round] == c.re.counts[key.round]
      && c'.re.replicas == c.re.replicas && c'.re.commits == c.re.commits
  {
    hide At, Wf, Replicating;
    AtReplicating(n, events, j);
    StaleIgnored(At(n, events, j), key);
  }

  lemma StaleIgnored(c: Cluster, k: AppendKey)
    requires Wf(c) && Replicating(c) && CanHandleAppend(c, k) && c.re.beats[k.round].leader < |c.nodes|
    requires c.nodes[c.re.beats[k.round].leader].term > c.re.beats[k.round].term
    ensures var c', i := AppendAnsweredStep(c, k), c.re.beats[k.round].leader;
      && c'.nodes[i].nextIndex == c.nodes[i].nextIndex && c'.nodes[i].matchIndex == c.nodes[i].matchIndex
      && c'.nodes[i].commitIndex == c.nodes[i].commitIndex && c'.re.counts[k.round] == c.re.counts[k.round]
      && c'.re.replicas == c.re.replicas && c'.re.commits == c.re.commits
  {
    hide Wf, Replicating;
    ReplyFacts(c, k);
    assert c.re.replicas[k.round := c.re.replicas[k.round]] == c.re.replicas;
  }
}
