/** In every run at most one node becomes leader in a term (section 5.2 of the Raft paper), whatever
    is lost, delayed, reordered or crashes, and the assertion "leader twice in one term" never fails. */
module ElectionSafety {
  import opened RaftTypes
  import opened RaftNode
  import opened NodeInvariants
  import opened RaftCluster
  import opened Quorums

  // ---------- the invariant ----------

  ghost predicate Elected(c: Cluster)
  {
    VotesKept(c.nodes, c.el.votes) && CallsBacked(c.el) && Tallies(|c.nodes|, c.el) && Thrones(|c.nodes|, c.el)
    && Reigns(c.nodes, c.el.leaders)
  }

  /** A vote cast is on the voter's disk until the disk has a newer term. */
  ghost predicate VotesKept(nodes: seq<Node>, votes: map<(nat, nat), nat>)
  {
    forall vt | vt in votes :: vt.0 < |nodes| && Holds(nodes[vt.0], vt.1, votes[vt])
  }

  predicate Holds(n: Node, term: nat, candidate: nat)
  {
    n.disk.term >= term && (n.disk.term == term ==> n.disk.votedFor == candidate)
  }

  predicate Backs(el: Elections, voter: nat, b: Ballot)
  {
    (voter, b.term) in el.votes && el.votes[(voter, b.term)] == b.candidate
  }

  /** Candidates vote for themselves, and a granted reply stands for a vote. */
  ghost predicate CallsBacked(el: Elections)
  {
    && (forall b | b in el.ballots :: Backs(el, b.candidate, b))
    && (forall k | k in el.replies && el.replies[k].granted :: Backs(el, k.voter, k.ballot))
  }

  ghost predicate Tallies(n: nat, el: Elections)
  {
    forall b | b in el.counted ::
      && (forall v | v in el.counted[b] ::
        v < n && v != b.candidate && VoteKey(b, v) in el.closed && Backs(el, v, b))
      && (b in el.counts ==> el.counts[b] <= |el.counted[b]| + 1)
      && (b in el.counts && Leads(el, b) ==> el.counts[b] + n / 2 <= |el.counted[b]|)
  }

  predicate Leads(el: Elections, b: Ballot) { b.term in el.leaders && el.leaders[b.term] == b.candidate }

  ghost predicate Thrones(n: nat, el: Elections)
  {
    forall t | t in el.leaders ::
      && t in el.quorums && IsQuorum(el.quorums[t], n)
      && Ballot(el.leaders[t], t) in el.ballots
      && forall v | v in el.quorums[t] :: Backs(el, v, Ballot(el.leaders[t], t))
  }

  ghost predicate Reigns(nodes: seq<Node>, leaders: map<nat, nat>)
  {
    forall i | 0 <= i < |nodes| && nodes[i].status == Leader ::
      nodes[i].term in leaders && leaders[nodes[i].term] == i
  }

  // ---------- every step keeps it ----------

  lemma NodeMoves(nodes: seq<Node>, el: Elections, i: nat, n: Node)
    requires i < |nodes| && Keeps(nodes[i], n) && VotesKept(nodes, el.votes)
    ensures VotesKept(nodes[i := n], el.votes)
    ensures Reigns(nodes, el.leaders) && NoCoup(nodes[i], n) ==> Reigns(nodes[i := n], el.leaders)
  {
  }

  lemma CastKeeps(nodes: seq<Node>, votes: map<(nat, nat), nat>, v: nat, b: Ballot)
    requires v < |nodes| && VotesKept(nodes, votes) && Holds(nodes[v], b.term, b.candidate)
    requires nodes[v].disk.term == b.term
    ensures (v, b.term) in votes ==> votes[(v, b.term)] == b.candidate
    ensures VotesKept(nodes, votes[(v, b.term) := b.candidate])
  {
  }

  /** A vote that repeats or adds to the record leaves everything that rests on the record in place. */
  lemma CastFrames(n: nat, el: Elections, v: nat, b: Ballot)
    requires CallsBacked(el) && Tallies(n, el) && Thrones(n, el)
    requires (v, b.term) in el.votes ==> el.votes[(v, b.term)] == b.candidate
    ensures var el' := el.(votes := el.votes[(v, b.term) := b.candidate]);
      CallsBacked(el') && Tallies(n, el') && Thrones(n, el') && Backs(el', v, b)
  {
  }

  lemma ElectKeeps(c: Cluster, i: nat)
    requires Wf(c) && Elected(c) && Alive(c, i)
    ensures Elected(ElectStep(c, i))
  {
    var n := c.nodes[i];
    if n.status != Leader {
      var n', b := DoElection(n), Ballot(i, n.term + 1);
      DoElectionKeeps(n);
      NodeMoves(c.nodes, c.el, i, n');
      assert b !in c.el.ballots;
      var voted := c.el.(votes := c.el.votes[(i, b.term) := i]);
      CastKeeps(c.nodes[i := n'], c.el.votes, i, b);
      CastFrames(|c.nodes|, c.el, i, b);
      BallotAdded(|c.nodes|, voted, b, VoteArgsOf(n'));
      var c' := ElectStep(c, i);
      assert c'.el == voted.(ballots := voted.ballots[b := VoteArgsOf(n')], counts := voted.counts[b := 1],
                             counted := voted.counted[b := {}]);
      assert c'.nodes == c.nodes[i := n'];
    }
  }

  lemma BallotAdded(n: nat, el: Elections, b: Ballot, args: VoteArgs)
    requires CallsBacked(el) && Tallies(n, el) && Thrones(n, el)
    requires b !in el.ballots && Backs(el, b.candidate, b)
    ensures var el' := el.(ballots := el.ballots[b := args], counts := el.counts[b := 1],
                           counted := el.counted[b := {}]);
      CallsBacked(el') && Tallies(n, el') && Thrones(n, el')
  {
  }

  lemma DeliverVoteKeeps(c: Cluster, k: VoteKey)
    requires Wf(c) && Elected(c) && CanDeliverVote(c, k)
    ensures Elected(DeliverVoteStep(c, k))
  {
    hide Sound, Keeps, Elected, Wf, RequestVote, DeliverVoteStep;
    var n, args := c.nodes[k.voter], c.el.ballots[k.ballot];
    var (n', reply) := RequestVote(n, args);
    var c' := DeliverVoteStep(c, k);
    DeliverVoteShape(c, k);
    ElectedParts(c);
    NodeMoves(c.nodes, c.el, k.voter, n');
    if reply.granted {
      CastKeeps(c'.nodes, c.el.votes, k.voter, k.ballot);
      CastFrames(|c.nodes|, c.el, k.voter, k.ballot);
      AnswerKeeps(|c.nodes|, c.el.(votes := c'.el.votes), k, reply);
    } else {
      AnswerKeeps(|c.nodes|, c.el, k, reply);
    }
    ElectedJoin(c', c'.nodes, c'.el);
  }

  lemma DeliverVoteShape(c: Cluster, k: VoteKey)
    requires Wf(c) && CanDeliverVote(c, k)
    ensures var n, args := c.nodes[k.voter], c.el.ballots[k.ballot];
      var (n', reply) := RequestVote(n, args);
      var c' := DeliverVoteStep(c, k);
      && Keeps(n, n') && NoCoup(n, n') && c'.nodes == c.nodes[k.voter := n']
      && c'.el == c.el.(
           replies := c.el.replies[k := reply],
           votes := if reply.granted then c.el.votes[(k.voter, k.ballot.term) := k.ballot.candidate] else c.el.votes)
      && (reply.granted ==> n'.disk.term == k.ballot.term && n'.disk.votedFor == k.ballot.candidate)
  {
    RequestVoteKeeps(c.nodes[k.voter], c.el.ballots[k.ballot]);
    GrantHeld(c.nodes[k.voter], c.el.ballots[k.ballot]);
  }

  lemma AnswerKeeps(n: nat, el: Elections, k: VoteKey, reply: VoteReply)
    requires CallsBacked(el) && Tallies(n, el) && Thrones(n, el)
    requires reply.granted ==> Backs(el, k.voter, k.ballot)
    ensures var el' := el.(replies := el.replies[k := reply]);
      CallsBacked(el') && Tallies(n, el') && Thrones(n, el')
  {
  }

  lemma GrantHeld(n: Node, args: VoteArgs)
    requires n.Valid()
    ensures var (n', reply) := RequestVote(n, args);
      reply.granted ==> n'.disk.term == args.term && n'.disk.votedFor == args.candidate
  {
  }

  /** A majority for a ballot can form only while its term has no leader. */
  lemma MajorityIsFirst(n: nat, el: Elections, k: VoteKey)
    requires CallsBacked(el) && Tallies(n, el) && Thrones(n, el)
    requires k in el.replies && el.replies[k].granted && k !in el.closed && k.voter < n && k.ballot.candidate < n
    requires k.voter != k.ballot.candidate && k.ballot in el.counted && k.ballot in el.counts && k.ballot in el.ballots
    requires el.counts[k.ballot] + 1 >= n / 2 + 1
    ensures k.ballot.term !in el.leaders
    ensures IsQuorum(el.counted[k.ballot] + {k.voter} + {k.ballot.candidate}, n)
  {
    var b := k.ballot;
    var q := el.counted[b] + {k.voter} + {b.candidate};
    FreshVoter(n, el, k);
    if b.term in el.leaders {
      if Leads(el, b) {
        Bounded(q, n);
      } else {
        BackersVoted(n, el, k);
        var v := Intersect(q, el.quorums[b.term], n);
      }
    }
  }

  lemma FreshVoter(n: nat, el: Elections, k: VoteKey)
    requires Tallies(n, el) && k !in el.closed && k.voter < n && k.ballot.candidate < n
    requires k.voter != k.ballot.candidate && k.ballot in el.counted
    ensures k.voter !in el.counted[k.ballot]
    ensures var q := el.counted[k.ballot] + {k.voter} + {k.ballot.candidate};
      |q| == |el.counted[k.ballot]| + 2 && forall v | v in q :: v < n
  {
    assert VoteKey(k.ballot, k.voter) == k;
  }

  lemma BackersVoted(n: nat, el: Elections, k: VoteKey)
    requires CallsBacked(el) && Tallies(n, el)
    requires k in el.replies && el.replies[k].granted && k.ballot in el.counted && k.ballot in el.ballots
    ensures forall v | v in el.counted[k.ballot] + {k.voter} + {k.ballot.candidate} :: Backs(el, v, k.ballot)
  {
  }

  predicate Counts(n: Node, reply: VoteReply) { reply.granted && reply.term == n.term }

  lemma VoteAnsweredKeeps(c: Cluster, k: VoteKey)
    requires Wf(c) && Elected(c) && CanHandleVote(c, k)
    ensures Elected(VoteAnsweredStep(c, k))
    ensures VoteAnsweredStep(c, k).nodes[k.ballot.candidate].halted.None?
    ensures Wins(c.nodes[k.ballot.candidate], VoteAnsweredStep(c, k).nodes[k.ballot.candidate]) ==>
              c.nodes[k.ballot.candidate].term == k.ballot.term && k.ballot.term !in c.el.leaders
  {
    var n := c.nodes[k.ballot.candidate];
    if !Counts(n, c.el.replies[k]) {
      VoteIgnored(c, k);
    } else if c.el.counts[k.ballot] + 1 < n.Majority() {
      VoteCounted(c, k);
    } else {
      VoteWins(c, k);
    }
  }

  lemma ReplyOutcome(n: Node, count: nat, reply: VoteReply)
    ensures var (n', count') := VoteReplied(n, count, reply);
      if !Counts(n, reply) then NoCoup(n, n') && count' == count && n'.halted == n.halted
      else if count + 1 < n.Majority() then (n', count') == (n, count + 1)
      else n.status != Leader ==>
        (n', count') == (Crown(n), 0) && Wins(n, n') && n'.term == n.term && n'.halted == n.halted
  {
  }

  lemma VoteIgnored(c: Cluster, k: VoteKey)
    requires Wf(c) && Elected(c) && CanHandleVote(c, k)
    requires !Counts(c.nodes[k.ballot.candidate], c.el.replies[k])
    ensures var c', i := VoteAnsweredStep(c, k), k.ballot.candidate;
      Elected(c') && |c'.nodes| == |c.nodes| && !Wins(c.nodes[i], c'.nodes[i]) && c'.nodes[i].halted.None?
  {
    hide Sound, Keeps, Elected, Wf, VoteAnsweredStep;
    hide VoteReplied, Crown, VotesKept, CallsBacked, Tallies, Thrones, Reigns;
    VoteAnsweredShape(c, k);
    ReplyOutcome(c.nodes[k.ballot.candidate], c.el.counts[k.ballot], c.el.replies[k]);
    var i, count, reply := k.ballot.candidate, c.el.counts[k.ballot], c.el.replies[k];
    var n := c.nodes[i];
    var n' := VoteReplied(n, count, reply).0;
    ElectedParts(c);
    NodeMoves(c.nodes, c.el, i, n');
    WfKey(c, k);
    TallyKeeps(|c.nodes|, c.el, k, n.term, count);
    var c' := VoteAnsweredStep(c, k);
    assert c'.nodes == c.nodes[i := n'] && c'.el == Tally(c.el, k, n.term, count);
    ElectedJoin(c', c'.nodes, c'.el);
  }

  lemma VoteCounted(c: Cluster, k: VoteKey)
    requires Wf(c) && Elected(c) && CanHandleVote(c, k)
    requires Counts(c.nodes[k.ballot.candidate], c.el.replies[k])
    requires c.el.counts[k.ballot] + 1 < c.nodes[k.ballot.candidate].Majority()
    ensures Elected(VoteAnsweredStep(c, k))
    ensures VoteAnsweredStep(c, k).nodes == c.nodes
  {
    hide Sound, Keeps, Elected, Wf, VoteAnsweredStep;
    hide VoteReplied, Crown, VotesKept, CallsBacked, Tallies, Thrones, Reigns;
    VoteAnsweredShape(c, k);
    ReplyOutcome(c.nodes[k.ballot.candidate], c.el.counts[k.ballot], c.el.replies[k]);
    var i, count := k.ballot.candidate, c.el.counts[k.ballot];
    ElectedParts(c);
    WfKey(c, k);
    TallyKeeps(|c.nodes|, c.el, k, c.nodes[i].term, count + 1);
    var c' := VoteAnsweredStep(c, k);
    assert c'.nodes == c.nodes && c'.el == Tally(c.el, k, c.nodes[i].term, count + 1);
    ElectedJoin(c', c'.nodes, c'.el);
  }

  lemma VoteWins(c: Cluster, k: VoteKey)
    requires Wf(c) && Elected(c) && CanHandleVote(c, k)
    requires Counts(c.nodes[k.ballot.candidate], c.el.replies[k])
    requires c.el.counts[k.ballot] + 1 >= c.nodes[k.ballot.candidate].Majority()
    ensures var c', i := VoteAnsweredStep(c, k), k.ballot.candidate;
      Elected(c') && |c'.nodes| == |c.nodes| && c'.nodes[i] == Crown(c.nodes[i])
    ensures c.nodes[k.ballot.candidate].term == k.ballot.term && k.ballot.term !in c.el.leaders
  {
    hide Sound, Keeps, Elected, Wf, VoteAnsweredStep;
    hide VoteReplied, Crown, VotesKept, CallsBacked, Tallies, Thrones, Reigns;
    VoteAnsweredShape(c, k);
    ReplyOutcome(c.nodes[k.ballot.candidate], c.el.counts[k.ballot], c.el.replies[k]);
    var i, b, count := k.ballot.candidate, k.ballot, c.el.counts[k.ballot];
    var n := c.nodes[i];
    ElectedParts(c);
    WfKey(c, k);
    MajorityIsFirst(|c.nodes|, c.el, k);
    LeaderKnown(c.nodes, c.el.leaders, i);
    NodeMoves(c.nodes, c.el, i, Crown(n));
    TallyKeeps(|c.nodes|, c.el, k, n.term, 0);
    var el := Tally(c.el, k, n.term, 0);
    CrownKeeps(|c.nodes|, el, b);
    var c' := VoteAnsweredStep(c, k);
    assert c'.nodes == c.nodes[i := Crown(n)];
    assert c'.el == el.(leaders := el.leaders[b.term := i], quorums := el.quorums[b.term := el.counted[b] + {i}]);
    CrownReigns(c.nodes, c.el.leaders, i, b.term);
    ElectedJoin(c', c'.nodes, c'.el);
  }

  lemma LeaderKnown(nodes: seq<Node>, leaders: map<nat, nat>, i: nat)
    requires Reigns(nodes, leaders) && i < |nodes|
    ensures nodes[i].status == Leader ==> nodes[i].term in leaders && leaders[nodes[i].term] == i
  {
  }

  lemma CrownReigns(nodes: seq<Node>, leaders: map<nat, nat>, i: nat, t: nat)
    requires Reigns(nodes, leaders) && i < |nodes| && t !in leaders && nodes[i].term == t
    ensures Reigns(nodes[i := Crown(nodes[i])], leaders[t := i])
  {
  }

  lemma ElectedParts(c: Cluster)
    requires Elected(c)
    ensures VotesKept(c.nodes, c.el.votes) && CallsBacked(c.el) && Tallies(|c.nodes|, c.el) && Thrones(|c.nodes|, c.el)
            && Reigns(c.nodes, c.el.leaders)
  {
  }

  lemma ElectedJoin(c: Cluster, nodes: seq<Node>, el: Elections)
    requires c.nodes == nodes && c.el == el
    requires VotesKept(nodes, el.votes) && CallsBacked(el) && Tallies(|nodes|, el) && Thrones(|nodes|, el)
    requires Reigns(nodes, el.leaders)
    ensures Elected(c)
  {
  }

  lemma WfKey(c: Cluster, k: VoteKey)
    requires Wf(c) && CanHandleVote(c, k)
    ensures k.voter < |c.nodes| && k.voter != k.ballot.candidate && k.ballot in c.el.ballots
    ensures c.el.replies[k].granted ==> c.el.replies[k].term == k.ballot.term
    ensures c.nodes[k.ballot.candidate].peers == |c.nodes|
  {
  }

  lemma VoteAnsweredShape(c: Cluster, k: VoteKey)
    requires Wf(c) && CanHandleVote(c, k)
    ensures var b := k.ballot; var n := c.nodes[b.candidate];
      var (n', count) := VoteReplied(n, c.el.counts[b], c.el.replies[k]);
      var c', el := VoteAnsweredStep(c, k), Tally(c.el, k, n.term, count);
      && Keeps(n, n') && c'.nodes == c.nodes[b.candidate := n']
      && c'.el == if Wins(n, n')
                  then el.(leaders := el.leaders[n.term := b.candidate],
                           quorums := el.quorums[n.term := el.counted[b] + {b.candidate}])
                  else el
  {
    VoteRepliedKeeps(c.nodes[k.ballot.candidate], c.el.counts[k.ballot], c.el.replies[k]);
  }

  lemma TallyKeeps(n: nat, el: Elections, k: VoteKey, term: nat, count: nat)
    requires CallsBacked(el) && Tallies(n, el) && Thrones(n, el)
    requires k in el.replies && k !in el.closed && k.ballot in el.counted && k.ballot in el.counts
    requires k.voter < n && k.voter != k.ballot.candidate
    requires count <= el.counts[k.ballot] + 1
    requires count > el.counts[k.ballot] ==> el.replies[k].granted && el.replies[k].term == term
    ensures var el' := Tally(el, k, term, count);
      CallsBacked(el') && Tallies(n, el') && Thrones(n, el')
  {
    TallyTallies(n, el, k, term, count);
  }

  lemma TallyTallies(n: nat, el: Elections, k: VoteKey, term: nat, count: nat)
    requires CallsBacked(el) && Tallies(n, el)
    requires k in el.replies && k !in el.closed && k.ballot in el.counted && k.ballot in el.counts
    requires k.voter < n && k.voter != k.ballot.candidate
    requires count <= el.counts[k.ballot] + 1
    requires count > el.counts[k.ballot] ==> el.replies[k].granted && el.replies[k].term == term
    ensures Tallies(n, Tally(el, k, term, count))
  {
    assert VoteKey(k.ballot, k.voter) == k;
    assert k.voter !in el.counted[k.ballot];
    assert |el.counted[k.ballot] + {k.voter}| == |el.counted[k.ballot]| + 1;
  }

  lemma CrownKeeps(n: nat, el: Elections, b: Ballot)
    requires CallsBacked(el) && Tallies(n, el) && Thrones(n, el)
    requires b in el.ballots && b in el.counted && b.term !in el.leaders
    requires IsQuorum(el.counted[b] + {b.candidate}, n)
    requires b in el.counts ==> el.counts[b] == 0
    ensures var el' := el.(leaders := el.leaders[b.term := b.candidate],
                           quorums := el.quorums[b.term := el.counted[b] + {b.candidate}]);
      CallsBacked(el') && Tallies(n, el') && Thrones(n, el')
      && forall x | Leads(el, x) :: Leads(el', x)
  {
    var el' := el.(leaders := el.leaders[b.term := b.candidate],
                   quorums := el.quorums[b.term := el.counted[b] + {b.candidate}]);
    CrownTallies(n, el, el', b);
  }

  lemma CrownTallies(n: nat, el: Elections, el': Elections, b: Ballot)
    requires Tallies(n, el) && b in el.counted && b.term !in el.leaders
    requires |el.counted[b] + {b.candidate}| >= n / 2 + 1 && (b in el.counts ==> el.counts[b] == 0)
    requires el'.counted == el.counted && el'.counts == el.counts && el'.votes == el.votes && el'.closed == el.closed
    requires el'.leaders == el.leaders[b.term := b.candidate]
    ensures Tallies(n, el')
  {
    assert |el.counted[b] + {b.candidate}| == |el.counted[b]| + 1;
    assert forall x | Leads(el', x) && x != b :: Leads(el, x);
  }

  // ---------- all steps, all runs ----------

  lemma CountsDropped(n: nat, el: Elections, el': Elections)
    requires CallsBacked(el) && Tallies(n, el) && Thrones(n, el)
    requires el' == el.(counts := el'.counts)
    requires forall b | b in el'.counts :: b in el.counts && el'.counts[b] == el.counts[b]
    ensures CallsBacked(el') && Tallies(n, el') && Thrones(n, el')
  {
  }

  lemma QuietKeeps(c: Cluster, c': Cluster)
    requires Elected(c) && AllKeep(c.nodes, c'.nodes) && NoCoups(c.nodes, c'.nodes)
    requires c'.el == c.el.(counts := c'.el.counts)
    requires forall b | b in c'.el.counts :: b in c.el.counts && c'.el.counts[b] == c.el.counts[b]
    ensures Elected(c')
  {
    CountsDropped(|c.nodes|, c.el, c'.el);
  }

  lemma QuietShape(c: Cluster, e: Event)
    requires Wf(c) && !e.Elect? && !e.DeliverVote? && !e.VoteAnswered?
    ensures var el' := Step(c, e).el;
      el' == c.el.(counts := el'.counts)
      && forall b | b in el'.counts :: b in c.el.counts && el'.counts[b] == c.el.counts[b]
  {
    hide WfNodes, WfVotes, WfBeats, WfInstalls;
    hide RequestVote, VoteReplied, AppendEntries, AppendReplied, InstallSnapshot, SnapshotReplied, ApplyLogs;
    hide Snapshot, Restart, FirstBeatFault, BeatOf;
  }

  ghost predicate LeadersGrow(el: Elections, el': Elections)
  {
    forall t | t in el.leaders :: t in el'.leaders && el'.leaders[t] == el.leaders[t]
  }

  lemma StepKeepsElected(c: Cluster, e: Event)
    requires Wf(c) && Elected(c)
    ensures Elected(Step(c, e)) && LeadersGrow(c.el, Step(c, e).el)
  {
    hide Elected, Wf;
    match e
    case Elect(i) => if Alive(c, i) { ElectKeeps(c, i); }
    case DeliverVote(k) => if CanDeliverVote(c, k) { DeliverVoteKeeps(c, k); }
    case VoteAnswered(k) => if CanHandleVote(c, k) { VoteAnsweredKeeps(c, k); VoteAnsweredShape(c, k); }
    case _ =>
      hide Step;
      StepMoves(c, e);
      QuietShape(c, e);
      QuietKeeps(c, Step(c, e));
  }

  lemma {:induction false} RunElected(n: nat, events: seq<Event>)
    ensures Elected(Exec(Init(n), events))
  {
    if events == [] {
    } else {
      hide Wf, Elected, Step, Init;
      RunElected(n, events[..|events| - 1]);
      StepKeepsElected(Exec(Init(n), events[..|events| - 1]), events[|events| - 1]);
    }
  }

  lemma {:induction false} LeadersStay(n: nat, events: seq<Event>, j: nat, k: nat)
    requires j <= k <= |events|
    ensures LeadersGrow(At(n, events, j).el, At(n, events, k).el)
    decreases k
  {
    hide Wf, Elected, At, Step;
    if j < k {
      LeadersStay(n, events, j, k - 1);
      AtNext(n, events, k - 1);
      AtElected(n, events, k - 1);
      StepKeepsElected(At(n, events, k - 1), events[k - 1]);
    }
  }

  lemma AtElected(n: nat, events: seq<Event>, k: nat)
    requires k <= |events|
    ensures Elected(At(n, events, k))
  {
    RunElected(n, events[..k]);
  }

  /** Over a whole run, however far apart in it: two leaders of one term are one node. */
  lemma ElectionSafety(n: nat, events: seq<Event>, j: nat, k: nat, a: nat, b: nat)
    requires j <= k <= |events| && a < n && b < n
    requires At(n, events, j).nodes[a].status == Leader && At(n, events, k).nodes[b].status == Leader
    requires At(n, events, j).nodes[a].term == At(n, events, k).nodes[b].term
    ensures a == b
  {
    hide Wf, At;
    AtElected(n, events, j);
    AtElected(n, events, k);
    LeadersStay(n, events, j, k);
  }
}
