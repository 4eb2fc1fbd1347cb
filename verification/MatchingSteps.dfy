/** What a clean step keeps of Log Matching (section 5.3 of the Raft paper) in a cluster whose logs are whole:
    every entry in a log, a candidate's log or a request stands on what the leader of its term had before it. */
module MatchingSteps {
  import opened RaftTypes
  import opened RaftNode
  import opened NodeInvariants
  import opened RaftCluster
  import opened ElectionSafety
  import opened EntryIdentity
  import opened CleanRuns
  import opened LogAlgebra

  // ---------- the invariant ----------

  ghost predicate Matching(c: Cluster)
  {
    && Plain(c)
    && TermLogsOk(c.el.leaders, c.past.electLogs, c.past.termLogs)
    && NodesAnchored(c.nodes, c.past.termLogs)
    && LeadersOnTop(c.nodes, c.past.termLogs)
    && TermsPast(c.nodes)
    && BeatsSliced(c.re.beats, c.past.termLogs)
    && Stood(c.el.ballots, c.past.candLogs)
    && CandidatesAnchored(c.past.candLogs, c.past.termLogs)
    && Heirs(c.el, c.past)
  }

  ghost predicate TermLogsOk(leaders: map<nat, nat>, electLogs: map<nat, Log>, termLogs: map<nat, Log>)
  {
    && leaders.Keys == termLogs.Keys
    && Shaped(electLogs, termLogs)
    && forall t | t in termLogs :: Anchored(termLogs[t], termLogs)
  }

  ghost predicate NodesAnchored(nodes: seq<Node>, termLogs: map<nat, Log>)
  {
    forall i | 0 <= i < |nodes| :: Anchored(nodes[i].log, termLogs)
  }

  /** A leader's log is all there is of its term. */
  ghost predicate LeadersOnTop(nodes: seq<Node>, termLogs: map<nat, Log>)
  {
    forall i | 0 <= i < |nodes| && nodes[i].status == Leader ::
      nodes[i].term in termLogs && termLogs[nodes[i].term] == nodes[i].log
  }

  predicate TermsUpTo(log: Log, t: nat) { forall k | 0 <= k < |log| :: log[k].logTerm <= t }

  ghost predicate TermsPast(nodes: seq<Node>)
  {
    forall i | 0 <= i < |nodes| :: TermsUpTo(nodes[i].log, nodes[i].disk.term)
  }

  ghost predicate BeatSliced(b: Beat, termLogs: map<nat, Log>)
  {
    && b.term in termLogs && b.last <= |termLogs[b.term]|
    && b.lastTerm == TermOf(termLogs[b.term], b.last)
    && forall p | p in b.sent ::
         SliceOf(termLogs[b.term], b.sent[p].prevIndex, b.last, b.sent[p].prevTerm, b.sent[p].entries)
  }

  ghost predicate BeatsSliced(beats: seq<Beat>, termLogs: map<nat, Log>)
  {
    forall r | 0 <= r < |beats| :: BeatSliced(beats[r], termLogs)
  }

  /** A candidate stands with a log of older terms, and its requests tell where that ends. */
  ghost predicate Stood(ballots: map<Ballot, VoteArgs>, candLogs: map<Ballot, Log>)
  {
    && candLogs.Keys == ballots.Keys
    && forall b | b in candLogs ::
      && (forall k | 0 <= k < |candLogs[b]| :: candLogs[b][k].logTerm < b.term)
      && ballots[b].lastIndex == |candLogs[b]| && ballots[b].lastTerm == TermOf(candLogs[b], |candLogs[b]|)
  }

  ghost predicate CandidatesAnchored(candLogs: map<Ballot, Log>, termLogs: map<nat, Log>)
  {
    forall b | b in candLogs :: Anchored(candLogs[b], termLogs)
  }

  ghost predicate Heirs(el: Elections, past: Past)
  {
    forall t | t in el.leaders ::
      && t in past.electLogs && Ballot(el.leaders[t], t) in past.candLogs
      && past.electLogs[t] == past.candLogs[Ballot(el.leaders[t], t)]
  }

  // ---------- growth ----------

  lemma GrowthKeeps(nodes: seq<Node>, beats: seq<Beat>, candLogs: map<Ballot, Log>,
                    termLogs: map<nat, Log>, termLogs': map<nat, Log>)
    requires NodesAnchored(nodes, termLogs) && BeatsSliced(beats, termLogs) && CandidatesAnchored(candLogs, termLogs)
    requires Extends(termLogs, termLogs')
    ensures NodesAnchored(nodes, termLogs') && BeatsSliced(beats, termLogs') && CandidatesAnchored(candLogs, termLogs')
  {
    forall i | 0 <= i < |nodes| ensures Anchored(nodes[i].log, termLogs') {
      AnchoredGrows(nodes[i].log, termLogs, termLogs');
    }
    forall b | b in candLogs ensures Anchored(candLogs[b], termLogs') {
      AnchoredGrows(candLogs[b], termLogs, termLogs');
    }
    forall r | 0 <= r < |beats| ensures BeatSliced(beats[r], termLogs') {
      SliceGrows(beats[r], termLogs, termLogs');
    }
  }

  lemma SliceGrows(b: Beat, termLogs: map<nat, Log>, termLogs': map<nat, Log>)
    requires BeatSliced(b, termLogs) && Extends(termLogs, termLogs')
    ensures BeatSliced(b, termLogs')
  {
    var log, log' := termLogs[b.term], termLogs'[b.term];
    assert log <= log';
    assert forall k | 0 <= k < |log| :: log[k] == log'[k];
    forall p | p in b.sent
      ensures SliceOf(log', b.sent[p].prevIndex, b.last, b.sent[p].prevTerm, b.sent[p].entries)
    {
      assert SliceOf(log, b.sent[p].prevIndex, b.last, b.sent[p].prevTerm, b.sent[p].entries);
    }
  }

  lemma AllGrow(leaders: map<nat, nat>, electLogs: map<nat, Log>, termLogs: map<nat, Log>, termLogs': map<nat, Log>)
    requires TermLogsOk(leaders, electLogs, termLogs) && Extends(termLogs, termLogs')
    ensures forall t | t in termLogs :: Anchored(termLogs[t], termLogs')
  {
    forall t | t in termLogs ensures Anchored(termLogs[t], termLogs') {
      AnchoredGrows(termLogs[t], termLogs, termLogs');
    }
  }

  // ---------- elections ----------

  lemma ElectKeeps(c: Cluster, i: nat)
    requires Wf(c) && Matching(c) && Alive(c, i)
    ensures Matching(ElectStep(c, i)) && ElectStep(c, i).past.termLogs == c.past.termLogs
  {
    hide Wf, Plain, TermLogsOk, BeatsSliced, Stood, NodesAnchored, LeadersOnTop, TermsPast;
    hide CandidatesAnchored, DoElection;
    var n := c.nodes[i];
    if n.status != Leader {
      var b, c' := Ballot(i, n.term + 1), ElectStep(c, i);
      NodeAt(c, i);
      SoundNodes(c);
      PlainAt(c, i);
      StepKeepsPlain(c, Elect(i));
      ElectedNode(n);
      ElectNodes(c.nodes, i, DoElection(n), c.past.termLogs);
      ElectStands(c.nodes, i, DoElection(n), c.el, c.past.candLogs);
      StoodAnchored(c.nodes, i, c.past.candLogs, b, c.past.termLogs);
      BallotNew(c.nodes, c.el, c.past.candLogs, b);
      assert c'.nodes == c.nodes[i := DoElection(n)];
      assert c'.past.candLogs == c.past.candLogs[b := n.log];
      HeirsStay(c.el, c'.el, c.past, c'.past, b);
    }
  }

  lemma ElectedNode(n: Node)
    requires Sound(n) && n.status != Leader
    ensures var n' := DoElection(n);
      SameLog(n, n') && n'.status == Candidate && n'.term == n'.disk.term == n.term + 1 && Keeps(n, n')
  {
  }

  lemma ElectNodes(nodes: seq<Node>, i: nat, n': Node, termLogs: map<nat, Log>)
    requires i < |nodes| && NodesAnchored(nodes, termLogs) && LeadersOnTop(nodes, termLogs) && TermsPast(nodes)
    requires SameLog(nodes[i], n') && n'.status != Leader && Keeps(nodes[i], n')
    ensures NodesAnchored(nodes[i := n'], termLogs) && LeadersOnTop(nodes[i := n'], termLogs)
    ensures TermsPast(nodes[i := n'])
  {
    assert TermsUpTo(nodes[i].log, nodes[i].disk.term);
  }

  lemma BallotNew(nodes: seq<Node>, el: Elections, candLogs: map<Ballot, Log>, b: Ballot)
    requires WfVotes(nodes, el) && Stood(el.ballots, candLogs)
    requires b.candidate < |nodes| && nodes[b.candidate].disk.term < b.term
    ensures b !in el.ballots && b !in candLogs
  {
  }

  lemma ElectStands(nodes: seq<Node>, i: nat, n': Node, el: Elections, candLogs: map<Ballot, Log>)
    requires i < |nodes| && Stood(el.ballots, candLogs) && WfVotes(nodes, el)
    requires nodes[i].Valid() && nodes[i].snapIndex == 0 && TermsPast(nodes) && nodes[i].disk.term < n'.disk.term
    requires SameLog(nodes[i], n') && n'.id == i && n'.term == n'.disk.term
    ensures var b := Ballot(i, n'.term);
      Stood(el.ballots[b := VoteArgsOf(n')], candLogs[b := nodes[i].log])
  {
    var b := Ballot(i, n'.term);
    assert TermsUpTo(nodes[i].log, nodes[i].disk.term);
    LastOf(nodes[i]);
    assert VoteArgsOf(n').lastIndex == |nodes[i].log|
      && VoteArgsOf(n').lastTerm == TermOf(nodes[i].log, |nodes[i].log|);
  }

  lemma StoodAnchored(nodes: seq<Node>, i: nat, candLogs: map<Ballot, Log>, b: Ballot, termLogs: map<nat, Log>)
    requires i < |nodes| && NodesAnchored(nodes, termLogs) && CandidatesAnchored(candLogs, termLogs)
    ensures CandidatesAnchored(candLogs[b := nodes[i].log], termLogs)
  {
  }

  lemma HeirsStay(el: Elections, el': Elections, past: Past, past': Past, b: Ballot)
    requires Heirs(el, past) && el'.leaders == el.leaders && past'.electLogs == past.electLogs && b !in past.candLogs
    requires forall x | x in past.candLogs :: x in past'.candLogs && past'.candLogs[x] == past.candLogs[x]
    ensures Heirs(el', past')
  {
  }

  lemma LastOf(n: Node)
    requires n.Valid() && n.snapIndex == 0
    ensures n.Last() == |n.log| && n.LastTerm() == TermOf(n.log, |n.log|)
  {
  }

  /** If this reply makes its candidate win, the candidate's log is still the one it stood with. */
  predicate Unmoved(c: Cluster, k: VoteKey)
  {
    CanHandleVote(c, k) && Winning(c, k) ==>
      k.ballot in c.past.candLogs && c.nodes[k.ballot.candidate].log == c.past.candLogs[k.ballot]
  }

  predicate Winning(c: Cluster, k: VoteKey)
    requires CanHandleVote(c, k)
  {
    var n := c.nodes[k.ballot.candidate];
    Wins(n, VoteReplied(n, c.el.counts[k.ballot], c.el.replies[k]).0)
  }

  lemma VoteAnsweredKeeps(c: Cluster, k: VoteKey)
    requires Wf(c) && Elected(c) && Matching(c) && CanHandleVote(c, k) && Unmoved(c, k)
    ensures Matching(VoteAnsweredStep(c, k))
    ensures Extends(c.past.termLogs, VoteAnsweredStep(c, k).past.termLogs)
  {
    hide Wf, Elected, VoteReplied, Matching, Plain, Extends, AllSame, AllKeep;
    var i, b, count := k.ballot.candidate, k.ballot, c.el.counts[k.ballot];
    var n, c' := c.nodes[i], VoteAnsweredStep(c, k);
    ElectionSafety.VoteAnsweredKeeps(c, k);
    VoteAnsweredShape(c, k);
    VoteAnsweredMoves(c, k);
    PlainOf(c);
    StepKeepsPlain(c, VoteAnswered(k));
    var n' := VoteReplied(n, count, c.el.replies[k]).0;
    assert c'.re == c.re && c'.past.candLogs == c.past.candLogs;
    if Wins(n, n') {
      CrownedNode(n, count, c.el.replies[k]);
      KeysAgree(c);
      Coronation(c, c', b);
    } else {
      SoundNodes(c);
      VoteCoup(c, k);
      SameLogsKeep(c, c');
      ExtendsSelf(c.past.termLogs);
    }
  }

  lemma ExtendsSelf(termLogs: map<nat, Log>)
    ensures Extends(termLogs, termLogs)
  {
  }

  lemma VoteCoup(c: Cluster, k: VoteKey)
    requires Wf(c) && CanHandleVote(c, k)
    requires var n := c.nodes[k.ballot.candidate];
      !Wins(n, VoteReplied(n, c.el.counts[k.ballot], c.el.replies[k]).0)
    ensures NoCoups(c.nodes, VoteAnsweredStep(c, k).nodes)
  {
    hide Wf;
    VoteAnsweredShape(c, k);
  }

  lemma CrownedNode(n: Node, count: nat, reply: VoteReply)
    requires Wins(n, VoteReplied(n, count, reply).0)
    ensures VoteReplied(n, count, reply).0 == Crown(n)
  {
  }

  lemma KeysAgree(c: Cluster)
    requires Matching(c)
    ensures c.el.leaders.Keys == c.past.termLogs.Keys == c.past.electLogs.Keys
  {
  }

  lemma PlainOf(c: Cluster)
    requires Matching(c)
    ensures Plain(c)
  {
  }

  lemma SoundNodes(c: Cluster)
    requires Wf(c)
    ensures WfNodes(c.nodes) && WfVotes(c.nodes, c.el)
  {
  }

  /** Steps that touch no log, no request and no throne. */
  lemma SameLogsKeep(c: Cluster, c': Cluster)
    requires Matching(c) && Plain(c') && WfNodes(c.nodes) && WfVotes(c.nodes, c.el)
    requires AllSame(c.nodes, c'.nodes) && AllKeep(c.nodes, c'.nodes) && NoCoups(c.nodes, c'.nodes)
    requires c'.past.electLogs == c.past.electLogs && c'.past.termLogs == c.past.termLogs
    requires c'.past.candLogs == c.past.candLogs && c'.re.beats == c.re.beats
    requires c'.el.ballots == c.el.ballots && c'.el.leaders == c.el.leaders
    ensures Matching(c')
  {
    hide WfNodes, Plain, TermLogsOk, BeatsSliced, Anchored, CandidatesAnchored, Contiguous, Stood;
  }

  lemma Coronation(c: Cluster, c': Cluster, b: Ballot)
    requires Matching(c) && Plain(c') && b.candidate < |c.nodes| && b in c.past.candLogs
    requires var n := c.nodes[b.candidate];
      && n.term == b.term && n.log == c.past.candLogs[b] && c'.nodes == c.nodes[b.candidate := Crown(n)]
      && c'.past == c.past.(electLogs := c.past.electLogs[b.term := n.log],
                                  termLogs := c.past.termLogs[b.term := n.log])
    requires b.term !in c.el.leaders && c'.re.beats == c.re.beats && c.el.leaders.Keys == c.past.termLogs.Keys
    requires c'.el.leaders == c.el.leaders[b.term := b.candidate] && c'.el.ballots == c.el.ballots
    ensures Matching(c') && Extends(c.past.termLogs, c'.past.termLogs)
  {
    hide Plain, NodesAnchored, LeadersOnTop, TermsPast, Stood, BeatsSliced, CandidatesAnchored, TermLogsOk, Extends;
    var n, tl, tl' := c.nodes[b.candidate], c.past.termLogs, c'.past.termLogs;
    StoodShape(c.el.ballots, c.past.candLogs, b);
    CrownTermLogs(c.el.leaders, c.past.electLogs, tl, b, n.log, c.past.candLogs);
    GrowthKeeps(c.nodes, c.re.beats, c.past.candLogs, tl, tl');
    CrownNodes(c.nodes, b.candidate, tl, tl', b);
  }

  lemma StoodShape(ballots: map<Ballot, VoteArgs>, candLogs: map<Ballot, Log>, b: Ballot)
    requires Stood(ballots, candLogs) && b in candLogs
    ensures LeaderShape(b.term, candLogs[b], candLogs[b])
  {
  }

  lemma CrownTermLogs(leaders: map<nat, nat>, electLogs: map<nat, Log>, termLogs: map<nat, Log>, b: Ballot, log: Log,
                      candLogs: map<Ballot, Log>)
    requires TermLogsOk(leaders, electLogs, termLogs) && b.term !in leaders && LeaderShape(b.term, log, log)
    requires CandidatesAnchored(candLogs, termLogs) && b in candLogs && candLogs[b] == log
    ensures Extends(termLogs, termLogs[b.term := log])
    ensures TermLogsOk(leaders[b.term := b.candidate], electLogs[b.term := log], termLogs[b.term := log])
  {
    hide Anchored;
    AllGrow(leaders, electLogs, termLogs, termLogs[b.term := log]);
    AnchoredGrows(log, termLogs, termLogs[b.term := log]);
  }

  lemma CrownNodes(nodes: seq<Node>, i: nat, termLogs: map<nat, Log>, termLogs': map<nat, Log>, b: Ballot)
    requires i < |nodes| && NodesAnchored(nodes, termLogs') && LeadersOnTop(nodes, termLogs) && TermsPast(nodes)
    requires nodes[i].term == b.term && b.term !in termLogs && termLogs' == termLogs[b.term := nodes[i].log]
    ensures var nodes' := nodes[i := Crown(nodes[i])];
      NodesAnchored(nodes', termLogs') && LeadersOnTop(nodes', termLogs') && TermsPast(nodes')
  {
    hide Anchored;
  }

  // ---------- client commands and heartbeats ----------

  lemma ClientStartKeeps(c: Cluster, i: nat, command: Op)
    requires Wf(c) && Elected(c) && Matching(c) && Alive(c, i)
    ensures Matching(ClientStartStep(c, i, command))
    ensures Extends(c.past.termLogs, ClientStartStep(c, i, command).past.termLogs)
  {
    hide Elected, Wf, NodesAnchored, LeadersOnTop, TermsPast, Stood, BeatsSliced, CandidatesAnchored, TermLogsOk;
    hide Extends, Start;
    var n := c.nodes[i];
    if n.status == Leader {
      var e, c' := LogEntry(command, n.term, n.Last() + 1), ClientStartStep(c, i, command);
      var tl, tl' := c.past.termLogs, c'.past.termLogs;
      LeaderOf(c, i);
      PlainAt(c, i);
      NodeAt(c, i);
      StepKeepsPlain(c, ClientStart(i, command));
      Started(n, command);
      PushTermLogs(c.el.leaders, c.past.electLogs, tl, n.term, e);
      GrowthKeeps(c.nodes, c.re.beats, c.past.candLogs, tl, tl');
      StartLeaders(c, i, command);
      StartAnchored(c.nodes, i, Start(n, command), c.el.leaders, c.past.electLogs, tl');
    } else {
      ExtendsSelf(c.past.termLogs);
    }
  }

  lemma Started(n: Node, command: Op)
    requires n.status == Leader
    ensures Start(n, command).log == n.log + [LogEntry(command, n.term, n.Last() + 1)]
    ensures Start(n, command).term == n.term
  {
  }

  lemma PushTermLogs(leaders: map<nat, nat>, electLogs: map<nat, Log>, termLogs: map<nat, Log>, t: nat, e: LogEntry)
    requires TermLogsOk(leaders, electLogs, termLogs) && t in termLogs && e.logTerm == t
    ensures var termLogs' := termLogs[t := termLogs[t] + [e]];
      Extends(termLogs, termLogs') && TermLogsOk(leaders, electLogs, termLogs')
  {
    hide Anchored, AnchoredAt;
    var termLogs' := termLogs[t := termLogs[t] + [e]];
    AllGrow(leaders, electLogs, termLogs, termLogs');
    PushAnchored(termLogs[t], e, termLogs');
    PushShape(t, electLogs[t], termLogs[t], e);
  }

  lemma StartAnchored(nodes: seq<Node>, i: nat, n': Node, leaders: map<nat, nat>, electLogs: map<nat, Log>,
                      termLogs: map<nat, Log>)
    requires NodesAnchored(nodes, termLogs) && TermLogsOk(leaders, electLogs, termLogs) && i < |nodes|
    requires n'.term in termLogs && n'.log == termLogs[n'.term]
    ensures NodesAnchored(nodes[i := n'], termLogs)
  {
  }

  lemma PushShape(t: nat, start: Log, log: Log, e: LogEntry)
    requires LeaderShape(t, start, log) && e.logTerm == t
    ensures LeaderShape(t, start, log + [e])
  {
  }

  lemma StartLeaders(c: Cluster, i: nat, command: Op)
    requires Wf(c) && Elected(c) && Matching(c) && Alive(c, i) && c.nodes[i].status == Leader
    ensures var c' := ClientStartStep(c, i, command);
      LeadersOnTop(c'.nodes, c'.past.termLogs) && TermsPast(c'.nodes)
  {
    hide WfVotes, WfBeats, WfInstalls, Contiguous, TermLogsOk, BeatsSliced, CandidatesAnchored, NodesAnchored;
    hide VotesKept, CallsBacked, Tallies, Thrones;
    var n := c.nodes[i];
    assert n.disk.term == n.term && n.term in c.el.leaders;
    assert TermsUpTo(n.log, n.disk.term);
  }

  lemma HeartBeatKeeps(c: Cluster, i: nat)
    requires Wf(c) && Matching(c) && Alive(c, i)
    ensures Matching(HeartBeatStep(c, i)) && HeartBeatStep(c, i).past == c.past
  {
    hide Wf, Matching, FirstBeatFault, Sending, Plain;
    if c.nodes[i].status == Leader {
      SendingKeeps(c, i);
      SendingWf(c, i);
      NodeAt(c, i);
      if FirstBeatFault(c.nodes[i], 0).Some? {
        HaltMatches(Sending(c, i), i, FirstBeatFault(c.nodes[i], 0).value);
      }
    }
  }

  lemma SendingKeeps(c: Cluster, i: nat)
    requires Wf(c) && Matching(c) && Alive(c, i) && c.nodes[i].status == Leader
    ensures Matching(Sending(c, i)) && Sending(c, i).past == c.past
  {
    hide Wf, BeatOf, TermLogsOk, BeatsSliced, CandidatesAnchored, NodesAnchored, Plain, Stood;
    var n := c.nodes[i];
    NodeAt(c, i);
    PlainAt(c, i);
    SendingPlain(c, i);
    BeatIsSliced(n, c.past.termLogs);
    BeatAppended(c.re.beats, BeatOf(n), c.past.termLogs);
  }

  lemma HaltMatches(c: Cluster, i: nat, a: Assertion)
    requires Wf(c) && Matching(c) && i < |c.nodes|
    ensures Matching(Put(c, i, c.nodes[i].Halt(a)))
  {
    hide Wf, Matching, WfNodes, WfVotes;
    NodeAt(c, i);
    SoundNodes(c);
    PlainOf(c);
    HaltKeeps(c.nodes[i], a);
    OneMoves(c.nodes, i, c.nodes[i].Halt(a));
    SameLogsKeep(c, Put(c, i, c.nodes[i].Halt(a)));
  }

  lemma PlainAt(c: Cluster, i: nat)
    requires Matching(c) && i < |c.nodes|
    ensures Plain(c) && c.nodes[i].snapIndex == 0
    ensures c.nodes[i].status == Leader ==>
              c.nodes[i].term in c.past.termLogs && c.past.termLogs[c.nodes[i].term] == c.nodes[i].log
  {
  }

  lemma BeatIsSliced(n: Node, termLogs: map<nat, Log>)
    requires n.Valid() && n.snapIndex == 0
    requires n.term in termLogs && termLogs[n.term] == n.log
    ensures BeatSliced(BeatOf(n), termLogs)
  {
    LastOf(n);
    forall p | p in BeatOf(n).sent
      ensures var args := BeatOf(n).sent[p];
        SliceOf(n.log, args.prevIndex, BeatOf(n).last, args.prevTerm, args.entries)
    {
      SentIsSlice(n, p);
    }
  }

  lemma SentIsSlice(n: Node, p: nat)
    requires n.Valid() && n.snapIndex == 0 && p < n.peers && 1 <= n.nextIndex[p] <= n.Last() + 1
    ensures var args := AppendArgsFor(n, p);
      SliceOf(n.log, args.prevIndex, |n.log|, args.prevTerm, args.entries)
  {
  }

  lemma BeatAppended(beats: seq<Beat>, b: Beat, termLogs: map<nat, Log>)
    requires BeatsSliced(beats, termLogs) && BeatSliced(b, termLogs)
    ensures BeatsSliced(beats + [b], termLogs)
  {
  }

  // ---------- requests ----------

  /** What a delivery does to the follower's log in a clean step. */
  lemma Delivered(c: Cluster, k: AppendKey)
    requires Wf(c) && Traced(c) && Matching(c) && CanDeliverAppend(c, k)
    requires Clean(c, DeliverAppend(k))
    ensures var b := c.re.beats[k.round]; var n, whole := c.nodes[k.peer], c.past.termLogs[b.term];
      var (n', reply) := AppendEntries(n, b.sent[k.peer]);
      && Anchored(n'.log, c.past.termLogs)
      && (!reply.success ==> n'.log == n.log && n'.commitIndex == n.commitIndex)
      && (reply.success ==>
        && whole[..b.last] <= n'.log && n'.term == n'.disk.term == b.term && b.term >= n.term
        && n'.log == if b.last >= |n.log| then whole[..b.last] else n.log)
  {
    hide WfVotes, WfInstalls, Contiguous, Node.Durable, TermLogsOk, Stood, CandidatesAnchored, Traced, Keeps;
    hide AppendEntries;
    var b := c.re.beats[k.round];
    var n, args, whole := c.nodes[k.peer], b.sent[k.peer], c.past.termLogs[b.term];
    DeliverLegal(c, k);
    assert BeatSliced(b, c.past.termLogs);
    if Accepts(n, args) {
      WholeAnchored(c, b.term);
      CleanSplice(n.log, whole, args.prevIndex, b.last, args.entries, c.past.termLogs);
      PrefixAnchored(whole, b.last, c.past.termLogs);
    }
    AppendLog(n, args);
  }

  lemma WholeAnchored(c: Cluster, t: nat)
    requires Matching(c) && t in c.past.termLogs
    ensures Anchored(c.past.termLogs[t], c.past.termLogs)
  {
  }

  lemma DeliverLegal(c: Cluster, k: AppendKey)
    requires Wf(c) && Traced(c) && CanDeliverAppend(c, k)
    ensures var n, b := c.nodes[k.peer], c.re.beats[k.round]; var args := b.sent[k.peer];
      && n.Valid() && n.halted.None? && args.term == b.term && args.End() == b.last
      && AppendEntries(n, args).0.halted.None?
  {
    SentKnown(c, k);
    AppendKnown(c.nodes[k.peer], c.re.beats[k.round].sent[k.peer], c.past.created);
  }

  lemma AppendLog(n: Node, args: AppendArgs)
    requires n.Valid() && n.halted.None? && AppendEntries(n, args).0.halted.None?
    ensures var (n', reply) := AppendEntries(n, args);
      && reply.success == Accepts(n, args)
      && n'.log == (if Accepts(n, args) then Splice(n.log, args.prevIndex - n.snapIndex, args.entries) else n.log)
      && (!reply.success ==> n'.commitIndex == n.commitIndex)
      && (args.term >= n.term ==> n'.term == n'.disk.term == args.term && n'.status == Follower)
      && (args.term < n.term ==> n' == n)
  {
  }

  lemma DeliverAppendKeeps(c: Cluster, k: AppendKey)
    requires Wf(c) && Elected(c) && Traced(c) && Matching(c) && CanDeliverAppend(c, k)
    requires Clean(c, DeliverAppend(k))
    ensures Matching(DeliverAppendStep(c, k))
  {
    hide Wf, Elected, Traced, Clean, Plain, TermLogsOk, BeatsSliced, CandidatesAnchored, AppendEntries, Keeps;
    hide Anchored, NodesAnchored, LeadersOnTop, TermsPast, Stood, Heirs, TermsUpTo;
    var b, c' := c.re.beats[k.round], DeliverAppendStep(c, k);
    var n, args := c.nodes[k.peer], b.sent[k.peer];
    var n' := AppendEntries(n, args).0;
    DeliverLegal(c, k);
    AppendLog(n, args);
    Delivered(c, k);
    DeliverAppendMoves(c, k);
    StepKeepsPlain(c, DeliverAppend(k));
    SoundNodes(c);
    TermKnown(c, b);
    DeliveredTerms(c, k);
    NodeRewritten(c.nodes, k.peer, n', c.past.termLogs);
  }

  lemma NodeRewritten(nodes: seq<Node>, i: nat, n': Node, termLogs: map<nat, Log>)
    requires i < |nodes| && NodesAnchored(nodes, termLogs) && LeadersOnTop(nodes, termLogs) && TermsPast(nodes)
    requires Anchored(n'.log, termLogs) && TermsUpTo(n'.log, n'.disk.term)
    requires n' == nodes[i] || n'.status == Follower
    ensures var nodes' := nodes[i := n'];
      NodesAnchored(nodes', termLogs) && LeadersOnTop(nodes', termLogs) && TermsPast(nodes')
  {
    hide Anchored;
  }

  lemma TermKnown(c: Cluster, b: Beat)
    requires Traced(c) && b in c.re.beats
    ensures b.term in c.el.leaders
  {
  }

  lemma DeliveredTerms(c: Cluster, k: AppendKey)
    requires Wf(c) && Traced(c) && Matching(c) && CanDeliverAppend(c, k)
    requires Clean(c, DeliverAppend(k))
    ensures var n' := AppendEntries(c.nodes[k.peer], c.re.beats[k.round].sent[k.peer]).0;
      TermsUpTo(n'.log, n'.disk.term)
  {
    hide Wf, Traced, Clean, Plain, CandidatesAnchored, AppendEntries, Keeps, Anchored, Stood, BeatSliced;
    var b := c.re.beats[k.round];
    var n' := AppendEntries(c.nodes[k.peer], b.sent[k.peer]).0;
    Delivered(c, k);
    DeliverAppendMoves(c, k);
    assert TermsUpTo(c.nodes[k.peer].log, c.nodes[k.peer].disk.term);
    assert c.nodes[k.peer].disk.term <= n'.disk.term by {
      assert Keeps(c.nodes[k.peer], n');
      KeepsTerm(c.nodes[k.peer], n');
    }
    assert BeatSliced(b, c.past.termLogs);
    SlicedTerm(b, c.past.termLogs);
    assert LeaderShape(b.term, c.past.electLogs[b.term], c.past.termLogs[b.term]);
  }

  lemma KeepsTerm(n: Node, n': Node)
    requires Keeps(n, n')
    ensures n.disk.term <= n'.disk.term
  {
  }

  lemma SlicedTerm(b: Beat, termLogs: map<nat, Log>)
    requires BeatSliced(b, termLogs)
    ensures b.term in termLogs && b.last <= |termLogs[b.term]|
  {
  }

  // ---------- all steps ----------

  lemma QuietShape(c: Cluster, e: Event)
    requires Wf(c) && !e.Elect? && !e.VoteAnswered? && !e.ClientStart? && !e.HeartBeat? && !e.DeliverAppend?
    ensures var c' := Step(c, e);
      && c'.past.electLogs == c.past.electLogs && c'.past.termLogs == c.past.termLogs
      && c'.past.candLogs == c.past.candLogs && c'.re.beats == c.re.beats
      && c'.el.ballots == c.el.ballots && c'.el.leaders == c.el.leaders
  {
    hide Wf, Step;
    EntryIdentity.QuietShape(c, e);
    QuietPast(c, e);
    QuietElections(c, e);
  }

  lemma QuietElections(c: Cluster, e: Event)
    requires Wf(c) && !e.Elect? && !e.VoteAnswered?
    ensures Step(c, e).el.ballots == c.el.ballots && Step(c, e).el.leaders == c.el.leaders
  {
    hide Wf;
    if e.DeliverVote? {
      if CanDeliverVote(c, e.vote) {
        DeliverVoteShape(c, e.vote);
      }
    } else {
      ElectionSafety.QuietShape(c, e);
    }
  }

  lemma QuietPast(c: Cluster, e: Event)
    requires Wf(c) && !e.Elect? && !e.VoteAnswered? && !e.ClientStart? && !e.HeartBeat? && !e.DeliverAppend?
    ensures var past, past' := c.past, Step(c, e).past;
      past' == past.(voteLogs := past'.voteLogs, delivered := past'.delivered, applied := past'.applied)
  {
    hide WfNodes, WfVotes, WfBeats, WfInstalls, RequestVote, AppendReplied, InstallSnapshot, SnapshotReplied;
    hide ApplyLogs, Snapshot, Restart;
  }

  lemma StepKeepsMatching(c: Cluster, e: Event)
    requires Wf(c) && Elected(c) && Traced(c) && Matching(c) && Clean(c, e) && !e.TakeSnapshot?
    requires e.VoteAnswered? ==> Unmoved(c, e.vote)
    ensures Matching(Step(c, e)) && Extends(c.past.termLogs, Step(c, e).past.termLogs)
  {
    hide Wf, Elected, Traced, Matching, Extends, Plain;
    ExtendsSelf(c.past.termLogs);
    match e
    case Elect(i) => if Alive(c, i) { ElectKeeps(c, i); }
    case VoteAnswered(k) => if CanHandleVote(c, k) { VoteAnsweredKeeps(c, k); }
    case ClientStart(i, command) => if Alive(c, i) { ClientStartKeeps(c, i, command); }
    case HeartBeat(i) => if Alive(c, i) { HeartBeatKeeps(c, i); }
    case DeliverAppend(k) => if CanDeliverAppend(c, k) { DeliverAppendKeeps(c, k); }
    case TakeSnapshot(i, index) =>
    case _ =>
      hide Step;
      QuietShape(c, e);
      StepMoves(c, e);
      PlainOf(c);
      SoundNodes(c);
      StepKeepsPlain(c, e);
      SameLogsKeep(c, Step(c, e));
  }

  lemma ExtendsTrans(a: map<nat, Log>, b: map<nat, Log>, c: map<nat, Log>)
    requires Extends(a, b) && Extends(b, c)
    ensures Extends(a, c)
  {
    forall t | t in a ensures t in c && a[t] <= c[t] {
      PrefixTrans(a[t], b[t], c[t]);
    }
  }
}
