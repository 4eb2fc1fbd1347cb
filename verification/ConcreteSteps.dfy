/** Steps of a cluster with the little they change, to follow concrete runs of five nodes. */
module ConcreteSteps {
  import opened RaftTypes
  import opened RaftNode
  import opened NodeInvariants
  import opened RaftCluster
  import ElectionSafety

  function Vote(candidate: nat, term: nat, voter: nat): VoteKey { VoteKey(Ballot(candidate, term), voter) }

  /** Replies handled were given before. */
  ghost predicate Tidy(c: Cluster)
  {
    c.el.closed <= c.el.replies.Keys && c.re.closed <= c.re.replies.Keys
  }

  /** Nothing but the nodes and the elections differ. */
  predicate SameRest(c: Cluster, c': Cluster)
  {
    c'.re == c.re && c'.past.delivered == c.past.delivered
  }

  /** The election is open: votes may still come in. */
  ghost predicate Open(c: Cluster, b: Ballot, count: nat)
  {
    b in c.el.ballots && b in c.el.counts && b in c.el.counted && c.el.counts[b] == count
  }

  lemma ElectFact(c: Cluster, i: nat)
    requires Wf(c) && Tidy(c) && Alive(c, i) && c.nodes[i].status != Leader
    ensures var c', n' := Step(c, Elect(i)), DoElection(c.nodes[i]);
      var b := Ballot(i, n'.term);
      && Tidy(c') && SameRest(c, c') && c'.nodes == c.nodes[i := n']
      && Open(c', b, 1) && c'.el.ballots[b] == VoteArgsOf(n') && forall k | k in c'.el.replies :: k.ballot != b
  {
    hide WfBeats, WfInstalls, Contiguous;
    var b := Ballot(i, c.nodes[i].term + 1);
    assert Sound(c.nodes[i]);
    assert b !in c.el.ballots;
  }

  lemma GrantFact(c: Cluster, k: VoteKey)
    requires Wf(c) && Tidy(c) && CanDeliverVote(c, k) && RequestVote(c.nodes[k.voter], c.el.ballots[k.ballot]).1.granted
    ensures var c' := Step(c, DeliverVote(k));
      && Tidy(c') && SameRest(c, c') && c'.nodes ==
          c.nodes[k.voter := RequestVote(c.nodes[k.voter], c.el.ballots[k.ballot]).0]
      && c'.el.ballots == c.el.ballots && c'.el.counts == c.el.counts && c'.el.counted == c.el.counted
      && c'.el.closed == c.el.closed && c'.el.replies.Keys == c.el.replies.Keys + {k}
      && c'.el.replies[k] == VoteReply(k.ballot.term, true, Normal)
  {
    hide Wf, RequestVote;
    GrantedReply(c.nodes[k.voter], c.el.ballots[k.ballot]);
    BallotTerm(c, k.ballot);
    var el := c.el.(replies := c.el.replies[k := VoteReply(k.ballot.term, true, Normal)],
                    votes := c.el.votes[(k.voter, k.ballot.term) := k.ballot.candidate]);
    assert Step(c, DeliverVote(k)).el == el;
  }

  lemma BallotTerm(c: Cluster, b: Ballot)
    requires Wf(c) && b in c.el.ballots
    ensures c.el.ballots[b].term == b.term
  {
  }

  lemma GrantedReply(n: Node, args: VoteArgs)
    requires RequestVote(n, args).1.granted
    ensures RequestVote(n, args).1 == VoteReply(args.term, true, Normal)
  {
  }

  lemma CountFact(c: Cluster, k: VoteKey)
    requires Wf(c) && Tidy(c) && CanHandleVote(c, k) && c.el.replies[k] == VoteReply(k.ballot.term, true, Normal)
    requires c.nodes[k.ballot.candidate].term == k.ballot.term && c.nodes[k.ballot.candidate].status != Leader
    ensures var c', n, count := Step(c, VoteAnswered(k)), c.nodes[k.ballot.candidate], c.el.counts[k.ballot];
      && Tidy(c') && SameRest(c, c') && c'.el.ballots == c.el.ballots && c'.el.replies == c.el.replies
      && c'.nodes == c.nodes[k.ballot.candidate := if count + 1 < n.Majority() then n else Crown(n)]
      && (count + 1 < n.Majority() ==> Open(c', k.ballot, count + 1))
  {
    hide Wf, VoteAnsweredStep, Keeps, Sound, Crown;
    ElectionSafety.WfKey(c, k);
    ElectionSafety.VoteAnsweredShape(c, k);
    VoteAnsweredRest(c, k);
  }

  lemma VoteAnsweredRest(c: Cluster, k: VoteKey)
    requires Wf(c) && CanHandleVote(c, k)
    ensures SameRest(c, VoteAnsweredStep(c, k))
  {
    hide Wf, VoteReplied;
  }

  /** One vote asked for, granted and counted. */
  lemma Support(c: Cluster, b: Ballot, v: nat, count: nat)
    requires Wf(c) && Tidy(c) && Open(c, b, count) && VoteKey(b, v) !in c.el.replies && v != b.candidate
    requires Alive(c, v) && Alive(c, b.candidate) && c.nodes[b.candidate].term == b.term
    requires c.nodes[b.candidate].status != Leader
    requires RequestVote(c.nodes[v], c.el.ballots[b]).1.granted
    ensures var c', n := Step(Step(c, DeliverVote(VoteKey(b, v))), VoteAnswered(VoteKey(b, v))), c.nodes[b.candidate];
      && Tidy(c') && SameRest(c, c') && c'.el.ballots == c.el.ballots
        && c'.el.replies.Keys == c.el.replies.Keys + {VoteKey(b, v)}
      && c'.nodes == c.nodes[v := RequestVote(c.nodes[v], c.el.ballots[b]).0]
                            [b.candidate := if count + 1 < n.Majority() then n else Crown(n)]
      && (count + 1 < n.Majority() ==> Open(c', b, count + 1))
  {
    hide Wf, Step, RequestVote, Crown;
    GrantFact(c, VoteKey(b, v));
    CountFact(Step(c, DeliverVote(VoteKey(b, v))), VoteKey(b, v));
  }

  /** Node i stands in term t and hears from v, then from w. */
  function Campaigned(c: Cluster, i: nat, t: nat, v: nat, w: nat): Cluster
    requires Wf(c)
  {
    var c1 := Step(Step(Step(c, Elect(i)), DeliverVote(Vote(i, t, v))), VoteAnswered(Vote(i, t, v)));
    Step(Step(c1, DeliverVote(Vote(i, t, w))), VoteAnswered(Vote(i, t, w)))
  }

  /** Node m would vote for n if n stood now. */
  predicate Grants(m: Node, n: Node)
  {
    RequestVote(m, VoteArgsOf(DoElection(n))).1.granted
  }

  /** From c to c', node i became leader with the votes of v and w, and nothing else changed in the nodes. */
  ghost predicate Won(c: Cluster, c': Cluster, i: nat, v: nat, w: nat)
    requires i < |c.nodes| && v < |c.nodes| && w < |c.nodes|
  {
    var n' := DoElection(c.nodes[i]);
    && Tidy(c') && SameRest(c, c')
    && c'.nodes == c.nodes[v := RequestVote(c.nodes[v], VoteArgsOf(n')).0]
                          [w := RequestVote(c.nodes[w], VoteArgsOf(n')).0][i := Crown(n')]
  }

  /** A node wins an election with the votes of two others, a majority of five. */
  lemma Campaign(c: Cluster, i: nat, v: nat, w: nat)
    requires Wf(c) && Tidy(c) && |c.nodes| == 5 && Alive(c, i) && Alive(c, v) && Alive(c, w)
    requires c.nodes[i].status != Leader
    requires i != v && i != w && v != w
    requires Grants(c.nodes[v], c.nodes[i]) && Grants(c.nodes[w], c.nodes[i])
    ensures Won(c, Campaigned(c, i, c.nodes[i].term + 1, v, w), i, v, w)
  {
    hide Wf, Step, RequestVote, DoElection, Crown, Tidy, VoteArgsOf;
    PeersFive(c, i);
    var n' := DoElection(c.nodes[i]);
    DoElectionFact(c.nodes[i]);
    var b := Ballot(i, n'.term);
    ElectFact(c, i);
    var c1 := Step(c, Elect(i));
    Support(c1, b, v, 1);
    var c2 := Step(Step(c1, DeliverVote(VoteKey(b, v))), VoteAnswered(VoteKey(b, v)));
    assert n'.Majority() == 3 && c2.nodes[i] == n';
    Support(c2, b, w, 2);
  }

  lemma PeersFive(c: Cluster, i: nat)
    requires Wf(c) && i < |c.nodes|
    ensures c.nodes[i].peers == |c.nodes|
  {
  }

  lemma DoElectionFact(n: Node)
    requires n.status != Leader
    ensures var n' := DoElection(n);
      n'.status == Candidate && n'.peers == n.peers && n'.halted == n.halted && n'.term == n.term + 1
  {
  }

  lemma StartFact(c: Cluster, i: nat, command: Op)
    requires Wf(c) && Tidy(c) && Alive(c, i)
    ensures var c' := Step(c, ClientStart(i, command));
      Tidy(c') && SameRest(c, c') && c'.nodes == c.nodes[i := Start(c.nodes[i], command)]
  {
    hide Wf;
  }

  lemma BeatFact(c: Cluster, i: nat)
    requires Wf(c) && Tidy(c) && Alive(c, i) && c.nodes[i].status == Leader && c.nodes[i].Valid() && InReach(c.nodes[i])
    ensures var c', r := Step(c, HeartBeat(i)), |c.re.beats|;
      && Tidy(c') && c'.nodes == c.nodes && c'.past.delivered == c.past.delivered
      && c'.re.beats == c.re.beats + [BeatOf(c.nodes[i])] && r in c'.re.counts && c'.re.counts[r] == 1
      && forall k | k in c'.re.replies :: k.round != r
  {
    hide WfNodes, WfVotes, WfInstalls, BeatOf, Contiguous;
    NoBeatFault(c.nodes[i], 0);
  }

  lemma DeliverFact(c: Cluster, k: AppendKey)
    requires Wf(c) && Tidy(c) && CanDeliverAppend(c, k)
    requires AppendEntries(c.nodes[k.peer], c.re.beats[k.round].sent[k.peer]).0.halted.None?
    ensures var c' := Step(c, DeliverAppend(k));
      var (m', reply) := AppendEntries(c.nodes[k.peer], c.re.beats[k.round].sent[k.peer]);
      && Tidy(c') && c'.nodes == c.nodes[k.peer := m'] && c'.past.delivered == c.past.delivered
      && c'.re.beats == c.re.beats && c'.re.counts == c.re.counts && c'.re.closed == c.re.closed
      && c'.re.replies == c.re.replies[k := reply]
  {
    hide Wf, AppendEntries;
  }

  lemma AnswerFact(c: Cluster, k: AppendKey)
    requires Wf(c) && Tidy(c) && CanHandleAppend(c, k)
    ensures var c', b := Step(c, AppendAnswered(k)), c.re.beats[k.round];
      && b.leader < |c.nodes| && k.peer in b.sent
        && k.peer < |c.nodes[b.leader].nextIndex| == |c.nodes[b.leader].matchIndex|
      && var (n', count) := AppendReplied(c.nodes[b.leader], k.peer, b.sent[k.peer], c.re.counts[k.round],
          c.re.replies[k]);
      && Tidy(c') && c'.nodes == c.nodes[b.leader := n'] && c'.past.delivered == c.past.delivered
      && c'.re.beats == c.re.beats && c'.re.counts == c.re.counts[k.round := count]
      && c'.re.replies == c.re.replies
  {
    hide Wf, AppendReplied, Keeps, NoCoup, AllKeep, NoCoups, AllTrim, AllSame;
    AppendAnsweredMoves(c, k);
  }

  /** One request delivered and answered. */
  lemma Exchange(c: Cluster, r: nat, p: nat)
    requires Wf(c) && Tidy(c) && CanDeliverAppend(c, AppendKey(r, p)) && r in c.re.counts
    requires Alive(c, c.re.beats[r].leader) && c.re.beats[r].leader != p
    requires AppendEntries(c.nodes[p], c.re.beats[r].sent[p]).0.halted.None?
    ensures var c' := Step(Step(c, DeliverAppend(AppendKey(r, p))), AppendAnswered(AppendKey(r, p)));
      var b, (m', reply) := c.re.beats[r], AppendEntries(c.nodes[p], c.re.beats[r].sent[p]);
      && p < |c.nodes[b.leader].nextIndex| == |c.nodes[b.leader].matchIndex|
      && var (n', count) := AppendReplied(c.nodes[b.leader], p, b.sent[p], c.re.counts[r], reply);
      && Tidy(c') && c'.nodes == c.nodes[p := m'][b.leader := n'] && c'.past.delivered == c.past.delivered
      && c'.re.beats == c.re.beats && c'.re.counts == c.re.counts[r := count]
      && c'.re.replies == c.re.replies[AppendKey(r, p) := reply]
  {
    hide Wf, Step, AppendEntries, AppendReplied;
    DeliverFact(c, AppendKey(r, p));
    AnswerFact(Step(c, DeliverAppend(AppendKey(r, p))), AppendKey(r, p));
  }

  lemma ApplyFact(c: Cluster, i: nat)
    requires Wf(c) && Tidy(c) && Alive(c, i) && c.nodes[i].Valid() && |c.past.delivered| == |c.nodes|
    ensures var c' := Step(c, Apply(i));
      && Tidy(c') && c'.nodes == c.nodes[i := ApplyLogs(c.nodes[i]).0] && c'.re == c.re
      && c'.past.delivered == c.past.delivered[i := c.past.delivered[i] + ApplyLogs(c.nodes[i]).1]
  {
    hide Wf, ApplyLogs;
  }

  lemma ValidAt(c: Cluster, i: nat)
    requires Wf(c) && i < |c.nodes|
    ensures c.nodes[i].Valid() && c.nodes[i].id == i && c.nodes[i].peers == |c.nodes| == |c.past.delivered|
  {
  }

  lemma InReachOf(n: Node)
    requires n.Valid() && n.peers == 5 && forall p | 0 <= p < 5 :: 1 <= n.nextIndex[p] <= n.Last() + 1
    ensures InReach(n)
  {
  }

  /** The request to p for a leader that never took a snapshot. */
  function Since(n: Node, p: nat): AppendArgs
    requires p < |n.nextIndex| && n.snapIndex == 0 && 1 <= n.nextIndex[p] <= n.Last() + 1
  {
    var prev := n.nextIndex[p] - 1;
    AppendArgs(n.term, n.id, prev, n.TermAt(prev), n.log[prev..], n.commitIndex)
  }

  lemma Request(n: Node, p: nat, args: AppendArgs)
    requires n.Valid() && InReach(n) && IsPeer(n, p) && n.snapIndex == 0 && 1 <= n.nextIndex[p] <= n.Last() + 1
    requires args == AppendArgs(n.term, n.id, n.nextIndex[p] - 1, n.TermAt(n.nextIndex[p] - 1),
        n.log[n.nextIndex[p] - 1..], n.commitIndex)
    ensures BeatOf(n).leader == n.id && p in BeatOf(n).sent && BeatOf(n).sent[p] == args
  {
  }

  /** A heartbeat, as far as peers p and q are concerned. */
  lemma Beating(c: Cluster, i: nat, p: nat, q: nat)
    requires Wf(c) && Tidy(c) && Alive(c, i) && c.nodes[i].status == Leader && |c.nodes| == 5 && i != p && i != q
    requires p < 5 && q < 5
    requires c.nodes[i].snapIndex == 0 && |c.nodes[i].nextIndex| == 5
    requires forall j | 0 <= j < 5 :: 1 <= c.nodes[i].nextIndex[j] <= c.nodes[i].Last() + 1
    ensures var c', r := Step(c, HeartBeat(i)), |c.re.beats|;
      && Tidy(c') && c'.nodes == c.nodes && c'.past.delivered == c.past.delivered && |c'.re.beats| == r + 1
      && var b := c'.re.beats[r];
      && b.leader == i && p in b.sent && q in b.sent
      && b.sent[p] == Since(c.nodes[i], p) && b.sent[q] == Since(c.nodes[i], q)
      && r in c'.re.counts && c'.re.counts[r] == 1 && forall k | k in c'.re.replies :: k.round != r
  {
    hide Wf, Step, Tidy, BeatOf, InReach;
    ValidAt(c, i);
    InReachOf(c.nodes[i]);
    BeatFact(c, i);
    Request(c.nodes[i], p, Since(c.nodes[i], p));
    Request(c.nodes[i], q, Since(c.nodes[i], q));
  }

  const ZEROS: seq<nat> := [0, 0, 0, 0, 0]

  function Plainly(id: nat, term: nat, votedFor: int, status: Status, log: seq<LogEntry>, commit: nat, applied: nat,
                   next: seq<int>, match': seq<nat>): Node
  {
    Node(id, 5, term, votedFor, status, log, 0, 0, commit, applied, next, match', Disk(term, votedFor, 0, 0, log), None)
  }

  function Calm(id: nat, term: nat, votedFor: int, log: seq<LogEntry>): Node
  {
    Plainly(id, term, votedFor, Follower, log, 0, 0, ZEROS, ZEROS)
  }

  function Fives(x: int): seq<int> { [x, x, x, x, x] }

  lemma Crowning(n: Node)
    requires n.status != Leader && n.halted.None? && n.peers == 5 && n.snapIndex == n.snapTerm == 0
    requires n.commitIndex == n.lastApplied == 0 && n.nextIndex == n.matchIndex == ZEROS
    ensures Crown(DoElection(n)) ==
      Plainly(n.id, n.term + 1, n.id, Leader, n.log, 0, 0, Fives(|n.log| + 1), ZEROS)
  {
    assert seq(5, _ => |n.log| + 1) == Fives(|n.log| + 1);
    assert seq(5, _ => 0) == ZEROS;
  }

  /** An accepted request whose entries meet no entry of their own term. */
  lemma Taking(n: Node, args: AppendArgs, log: seq<LogEntry>)
    requires n.snapIndex == n.snapTerm == 0 && n.commitIndex >= args.leaderCommit && n.term <= args.term
    requires args.prevIndex <= |n.log| && n.TermAt(args.prevIndex) == args.prevTerm
    requires forall k | 0 <= k < |args.entries| && args.prevIndex + k < |n.log| ::
      n.log[args.prevIndex + k].logTerm != args.entries[k].logTerm
    requires log == Splice(n.log, args.prevIndex, args.entries)
    ensures AppendEntries(n, args) ==
      (Followed(n, args).(log := log).Persist(), AppendReply(args.term, true, 0))
  {
  }

  /** A success that is not yet the majority, and one that is. */
  lemma Counted(n: Node, p: nat, args: AppendArgs, count: nat)
    requires n.status == Leader && n.term == args.term && p < |n.nextIndex| == |n.matchIndex|
    requires n.matchIndex[p] <= args.End()
    requires args.End() <= n.Last() && args.entries != [] && args.entries[|args.entries| - 1].logTerm == n.term
    requires n.commitIndex <= args.End()
    ensures var m := n.(matchIndex := n.matchIndex[p := args.End()], nextIndex := n.nextIndex[p := args.End() + 1]);
      AppendReplied(n, p, args, count, AppendReply(args.term, true, 0)) ==
        if count + 1 < n.Majority() then (m, count + 1) else (m.(commitIndex := args.End()), 0)
  {
  }

  lemma Begin(events: seq<Event>)
    ensures var c := At(5, events, 0);
      && Tidy(c) && |c.re.beats| == 0 && c.past.delivered == [[], [], [], [], []]
      && c.nodes == [Calm(0, 0, -1, []), Calm(1, 0, -1, []), Calm(2, 0, -1, []), Calm(3, 0, -1, []), Calm(4, 0, -1, [])]
  {
    assert events[..0] == [];
    assert seq(5, _ => 0) == ZEROS;
  }

  lemma Next5(events: seq<Event>, k: nat)
    requires k + 5 <= |events|
    ensures At(5, events, k + 5) == Step(Step(Step(Step(Step(At(5, events, k), events[k]), events[k + 1]),
        events[k + 2]), events[k + 3]), events[k + 4])
  {
    hide At, Step;
    AtNext(5, events, k);
    AtNext(5, events, k + 1);
    AtNext(5, events, k + 2);
    AtNext(5, events, k + 3);
    AtNext(5, events, k + 4);
  }

  lemma SnapshotFact(c: Cluster, i: nat, index: int)
    requires Wf(c) && Tidy(c) && Alive(c, i) && c.nodes[i].commitIndex <= c.nodes[i].Last()
    ensures var c' := Step(c, TakeSnapshot(i, index));
      Tidy(c') && SameRest(c, c') && c'.nodes == c.nodes[i := Snapshot(c.nodes[i], index)]
  {
    hide Wf, Snapshot;
  }

  lemma CrashFact(c: Cluster, i: nat)
    requires Wf(c) && Tidy(c) && i < |c.nodes|
    ensures var c' := Step(c, Crash(i));
      Tidy(c') && c'.nodes == c.nodes[i := Restart(c.nodes[i])] && c'.re.beats == c.re.beats
  {
    hide WfNodes, WfVotes, WfBeats, WfInstalls, Restart;
  }

  /** A heartbeat that dies of an assertion. */
  lemma FatalBeat(c: Cluster, i: nat)
    requires Wf(c) && Alive(c, i) && c.nodes[i].status == Leader && c.nodes[i].peers == |c.nodes[i].nextIndex|
    requires FirstBeatFault(c.nodes[i], 0).Some?
    ensures Step(c, HeartBeat(i)).nodes == c.nodes[i := c.nodes[i].Halt(FirstBeatFault(c.nodes[i], 0).value)]
  {
    hide Wf, FirstBeatFault;
  }

  /** The five events from k on are such a campaign. */
  predicate Campaigning(events: seq<Event>, k: nat, i: nat, t: nat, v: nat, w: nat)
    requires k + 5 <= |events|
  {
    && events[k] == Elect(i)
    && events[k + 1] == DeliverVote(Vote(i, t, v)) && events[k + 2] == VoteAnswered(Vote(i, t, v))
    && events[k + 3] == DeliverVote(Vote(i, t, w)) && events[k + 4] == VoteAnswered(Vote(i, t, w))
  }

  /** A campaign as part of a run of five nodes. */
  lemma CampaignAt(events: seq<Event>, k: nat, i: nat, v: nat, w: nat)
    requires k + 5 <= |events| && i < 5 && v < 5 && w < 5 && i != v && i != w && v != w
    requires var c := At(5, events, k);
      && Tidy(c) && Alive(c, i) && Alive(c, v) && Alive(c, w) && c.nodes[i].status != Leader
      && Grants(c.nodes[v], c.nodes[i]) && Grants(c.nodes[w], c.nodes[i])
      && Campaigning(events, k, i, c.nodes[i].term + 1, v, w)
    ensures Won(At(5, events, k), At(5, events, k + 5), i, v, w)
  {
    hide At, Wf, Step, Tidy, Won, Grants;
    Next5(events, k);
    Campaign(At(5, events, k), i, v, w);
  }
}
