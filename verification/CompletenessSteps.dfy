/** Leader Completeness (section 5.4 of the Raft paper) in a cluster whose logs are whole: what nodes remember of
    votes and acknowledgements, kept by every clean step, carries each commit into the log of every candidate
    of a later term that a majority voted for. */
module CompletenessSteps {
  import opened RaftTypes
  import opened RaftNode
  import opened NodeInvariants
  import opened RaftCluster
  import opened Quorums
  import opened ElectionSafety
  import opened EntryIdentity
  import opened Commitment
  import opened CleanRuns
  import opened LogAlgebra
  import opened MatchingSteps

  // ---------- logs ----------

  /** The vote check of the source, on logs. */
  predicate UpToDateLog(cand: Log, voter: Log)
  {
    var c, v := TermOf(cand, |cand|), TermOf(voter, |voter|);
    c > v || (c == v && |cand| >= |voter|)
  }

  /** The log still has the prefix acknowledged in term t, or a leader of a later term up to `bound`
      started without it. */
  ghost predicate Retained(prefix: Log, t: nat, log: Log, bound: int, electLogs: map<nat, Log>)
  {
    prefix <= log || exists u :: t < u <= bound && Lacks(u, prefix, electLogs)
  }

  predicate Lacks(u: nat, prefix: Log, electLogs: map<nat, Log>)
  {
    u in electLogs && !(prefix <= electLogs[u])
  }

  lemma RetainedGrows(prefix: Log, t: nat, log: Log, bound: int, electLogs: map<nat, Log>,
                      bound': int, electLogs': map<nat, Log>)
    requires Retained(prefix, t, log, bound, electLogs) && bound <= bound'
    requires forall u | u in electLogs :: u in electLogs' && electLogs'[u] == electLogs[u]
    ensures Retained(prefix, t, log, bound', electLogs')
  {
    if !(prefix <= log) {
      var u :| t < u <= bound && Lacks(u, prefix, electLogs);
      assert Lacks(u, prefix, electLogs');
    }
  }

  /** An accepted request of term u, which the log follows up to `end` from now on. */
  lemma RetainedRewrite(prefix: Log, t: nat, log: Log, log': Log, u: nat, end: nat, bound: int,
                        electLogs: map<nat, Log>, termLogs: map<nat, Log>)
    requires Shaped(electLogs, termLogs) && u in termLogs && end <= |termLogs[u]| && bound <= u && t <= u
    requires t in termLogs && prefix <= termLogs[t]
    requires Retained(prefix, t, log, bound, electLogs)
    requires log' == if end >= |log| then termLogs[u][..end] else log
    ensures Retained(prefix, t, log', u, electLogs)
  {
    if prefix <= log && end >= |log| {
      if t == u {
        assert prefix == termLogs[u][..|prefix|] == termLogs[u][..end][..|prefix|];
      } else if prefix <= electLogs[u] {
        assert LeaderShape(u, electLogs[u], termLogs[u]);
        PrefixTrans(prefix, electLogs[u], termLogs[u]);
        assert prefix == termLogs[u][..|prefix|] == termLogs[u][..end][..|prefix|];
      } else {
        assert Lacks(u, prefix, electLogs);
      }
    } else if !(prefix <= log) {
      var w :| t < w <= bound && Lacks(w, prefix, electLogs);
      assert t < w <= u && Lacks(w, prefix, electLogs);
    }
  }

  /** A candidate whose log passed the check against a log with the prefix has the prefix, provided
      the leaders in between started with it. */
  lemma UpToDateCarries(cand: Log, voter: Log, prefix: Log, t: nat, bound: nat,
                        electLogs: map<nat, Log>, termLogs: map<nat, Log>)
    requires Shaped(electLogs, termLogs) && Anchored(cand, termLogs) && Anchored(voter, termLogs)
    requires prefix <= voter && TermOf(prefix, |prefix|) == t && UpToDateLog(cand, voter)
    requires forall k | 0 <= k < |cand| :: cand[k].logTerm < bound
    requires forall u | t < u < bound && u in electLogs :: prefix <= electLogs[u]
    ensures prefix <= cand
  {
    if prefix != [] {
      assert voter[|prefix| - 1] == prefix[|prefix| - 1];
      TermsSorted(voter, electLogs, termLogs, |prefix| - 1, |voter| - 1);
      assert AnchoredAt(voter, |voter| - 1, termLogs) && voter[..|voter|] == voter;
      if |cand| > 0 {
        var e := cand[|cand| - 1].logTerm;
        assert AnchoredAt(cand, |cand| - 1, termLogs) && cand[..|cand|] == cand;
        if e == TermOf(voter, |voter|) {
          assert voter == termLogs[e][..|voter|] == cand[..|voter|];
          PrefixTrans(prefix, voter, cand);
        } else {
          assert LeaderShape(e, electLogs[e], termLogs[e]);
          assert cand[|cand| - 1] == termLogs[e][|cand| - 1];
          assert electLogs[e] == termLogs[e][..|electLogs[e]|] == cand[..|electLogs[e]|];
          PrefixTrans(prefix, electLogs[e], cand);
        }
      }
    }
  }

  // ---------- the invariant ----------

  ghost predicate Remembering(c: Cluster)
  {
    VotesLogged(c.el, c.past) && AcksKept(c.nodes, c.re, c.past)
  }

  ghost predicate VotesLogged(el: Elections, past: Past)
  {
    && (forall vt | vt in past.voteLogs ::
      && vt in el.votes && Ballot(el.votes[vt], vt.1) in past.candLogs
      && UpToDateLog(past.candLogs[Ballot(el.votes[vt], vt.1)], past.voteLogs[vt])
      && Anchored(past.voteLogs[vt], past.termLogs))
    && (forall vt | vt in el.votes && vt.1 !in el.leaders :: vt in past.voteLogs)
    && (forall t, v | t in el.leaders && t in el.quorums && v in el.quorums[t] :: (v, t) in past.voteLogs)
  }

  /** What a node acknowledged when it accepted, or as leader sent, a heartbeat. */
  function Acked(b: Beat, termLogs: map<nat, Log>): Log
  {
    if b.term in termLogs && b.last <= |termLogs[b.term]| then termLogs[b.term][..b.last] else []
  }

  ghost predicate AcksKept(nodes: seq<Node>, re: Replication, past: Past)
  {
    forall k | k in re.holders ::
      k.round < |re.beats| && k.peer < |nodes| && AckKept(nodes[k.peer], k.peer, re.beats[k.round], past)
  }

  ghost predicate AckKept(n: Node, v: nat, b: Beat, past: Past)
  {
    && b.term <= n.disk.term
    && Retained(Acked(b, past.termLogs), b.term, n.log, n.disk.term, past.electLogs)
    && forall t | (v, t) in past.voteLogs && t > b.term ::
         Retained(Acked(b, past.termLogs), b.term, past.voteLogs[(v, t)], t - 1, past.electLogs)
  }

  // ---------- the theorem, on a cluster that satisfies the invariants ----------

  /** Every commit of an earlier term is in the log a leader started with ... */
  lemma {:induction false} Completeness(c: Cluster, m: Commit, t: nat)
    requires Elected(c) && Matching(c) && Remembering(c) && CommitOk(|c.nodes|, c.re.beats, c.re.holders, m)
    requires t in c.el.leaders && t > m.term
    ensures m.term in c.past.termLogs && m.index <= |c.past.termLogs[m.term]| && t in c.past.electLogs
    ensures c.past.termLogs[m.term][..m.index] <= c.past.electLogs[t]
    decreases t, 1
  {
    hide Elected, Matching, Remembering, CommitOk;
    ThroneFacts(c, t);
    CandidateComplete(c, m, Ballot(c.el.leaders[t], t), c.el.quorums[t]);
  }

  /** ... and in the log any candidate stood with that a majority voted for. */
  lemma {:induction false} CandidateComplete(c: Cluster, m: Commit, b: Ballot, quorum: set<nat>)
    requires Elected(c) && Matching(c) && Remembering(c) && CommitOk(|c.nodes|, c.re.beats, c.re.holders, m)
    requires IsQuorum(quorum, |c.nodes|) && forall v | v in quorum :: VoteRemembered(c, v, b)
    requires b in c.past.candLogs && b.term > m.term
    ensures m.term in c.past.termLogs && m.index <= |c.past.termLogs[m.term]|
    ensures c.past.termLogs[m.term][..m.index] <= c.past.candLogs[b]
    decreases b.term, 0
  {
    hide Elected, Matching, Remembering, Retained, UpToDateLog;
    var past, t := c.past, b.term;
    CommitFacts(c, m);
    CandidateFacts(c, b);
    var prefix := past.termLogs[m.term][..m.index];
    var w := Intersect(m.quorum, quorum, |c.nodes|);
    Witness(c, m, b, w);
    forall u | m.term < u < t && u in past.electLogs ensures prefix <= past.electLogs[u] {
      Completeness(c, m, u);
    }
    RetainedHere(prefix, m.term, past.voteLogs[(w, t)], t - 1, past.electLogs);
    UpToDateCarries(past.candLogs[b], past.voteLogs[(w, t)], prefix, m.term, t, past.electLogs, past.termLogs);
  }

  /** v voted for b before the term had a leader. */
  predicate VoteRemembered(c: Cluster, v: nat, b: Ballot) { Backs(c.el, v, b) && (v, b.term) in c.past.voteLogs }

  lemma RetainedHere(prefix: Log, t: nat, log: Log, bound: int, electLogs: map<nat, Log>)
    requires Retained(prefix, t, log, bound, electLogs)
    requires forall u | t < u <= bound && u in electLogs :: prefix <= electLogs[u]
    ensures prefix <= log
  {
  }

  lemma ThroneFacts(c: Cluster, t: nat)
    requires Elected(c) && Matching(c) && Remembering(c) && t in c.el.leaders
    ensures var past, e := c.past, Ballot(c.el.leaders[t], t);
      && t in past.electLogs && e in past.candLogs && past.electLogs[t] == past.candLogs[e]
      && t in c.el.quorums && IsQuorum(c.el.quorums[t], |c.nodes|)
      && forall v | v in c.el.quorums[t] :: VoteRemembered(c, v, e)
  {
    hide VotesKept, CallsBacked, Tallies, Anchored, NodesAnchored, LeadersOnTop, TermsPast, AcksKept, UpToDateLog;
    hide BeatsSliced, Stood, CandidatesAnchored;
  }

  lemma CommitFacts(c: Cluster, m: Commit)
    requires Matching(c) && CommitOk(|c.nodes|, c.re.beats, c.re.holders, m)
    ensures var tl, b := c.past.termLogs, c.re.beats[m.round];
      && m.term in tl && m.index <= |tl[m.term]| && TermOf(tl[m.term], m.index) == m.term
      && TermOf(tl[m.term][..m.index], m.index) == m.term && Acked(b, tl) == tl[m.term][..m.index]
      && c.past.electLogs.Keys == tl.Keys == c.el.leaders.Keys && Shaped(c.past.electLogs, tl)
      && m.round < |c.re.beats| && IsQuorum(m.quorum, |c.nodes|)
  {
    hide Anchored, NodesAnchored, LeadersOnTop, TermsPast, Stood, Heirs;
    assert BeatSliced(c.re.beats[m.round], c.past.termLogs);
  }

  lemma CandidateFacts(c: Cluster, b: Ballot)
    requires Matching(c) && b in c.past.candLogs
    ensures Anchored(c.past.candLogs[b], c.past.termLogs)
    ensures forall k | 0 <= k < |c.past.candLogs[b]| :: c.past.candLogs[b][k].logTerm < b.term
  {
    hide Anchored, NodesAnchored, LeadersOnTop, TermsPast, BeatsSliced;
  }

  /** The node in both quorums, and what it remembers. */
  lemma Witness(c: Cluster, m: Commit, b: Ballot, w: nat)
    requires Matching(c) && Remembering(c) && CommitOk(|c.nodes|, c.re.beats, c.re.holders, m)
    requires w in m.quorum && VoteRemembered(c, w, b) && b in c.past.candLogs && b.term > m.term
    ensures var past := c.past; var voted := past.voteLogs;
      && Anchored(voted[(w, b.term)], past.termLogs)
      && UpToDateLog(past.candLogs[b], voted[(w, b.term)])
      && Retained(Acked(c.re.beats[m.round], past.termLogs), m.term, voted[(w, b.term)], b.term - 1, past.electLogs)
  {
    hide Anchored, NodesAnchored, LeadersOnTop, TermsPast, Retained, Stood;
    hide UpToDateLog, BeatsSliced, TermLogsOk, CandidatesAnchored, Acked;
    var k := AppendKey(m.round, w);
    assert AckKept(c.nodes[w], w, c.re.beats[m.round], c.past);
  }

  // ---------- every step keeps the memory ----------

  ghost predicate ElectLogsGrow(electLogs: map<nat, Log>, electLogs': map<nat, Log>)
  {
    forall u | u in electLogs :: u in electLogs' && electLogs'[u] == electLogs[u]
  }

  /** No log lost anything and no durable term fell. */
  ghost predicate LogsGrow(nodes: seq<Node>, nodes': seq<Node>)
  {
    |nodes'| == |nodes| && forall i | 0 <= i < |nodes| ::
      nodes[i].log <= nodes'[i].log && nodes[i].disk.term <= nodes'[i].disk.term
  }

  lemma SameLogsGrow(nodes: seq<Node>, nodes': seq<Node>)
    requires AllSame(nodes, nodes') && AllKeep(nodes, nodes')
    ensures LogsGrow(nodes, nodes')
  {
  }

  lemma AckedStays(b: Beat, termLogs: map<nat, Log>, termLogs': map<nat, Log>)
    requires BeatSliced(b, termLogs) && Extends(termLogs, termLogs')
    ensures Acked(b, termLogs') == Acked(b, termLogs) && Acked(b, termLogs) <= termLogs[b.term]
  {
    assert termLogs[b.term] <= termLogs'[b.term];
  }

  lemma RetainedInMore(prefix: Log, t: nat, log: Log, bound: int, electLogs: map<nat, Log>,
                       log': Log, bound': int, electLogs': map<nat, Log>)
    requires Retained(prefix, t, log, bound, electLogs) && log <= log' && bound <= bound'
    requires ElectLogsGrow(electLogs, electLogs')
    ensures Retained(prefix, t, log', bound', electLogs')
  {
    RetainedGrows(prefix, t, log, bound, electLogs, bound', electLogs');
    if prefix <= log {
      PrefixTrans(prefix, log, log');
    }
  }

  lemma AcksMove(nodes: seq<Node>, nodes': seq<Node>, re: Replication, re': Replication, past: Past, past': Past)
    requires AcksKept(nodes, re, past) && BeatsSliced(re.beats, past.termLogs)
    requires LogsGrow(nodes, nodes') && re'.holders == re.holders && re.beats <= re'.beats
    requires Extends(past.termLogs, past'.termLogs) && ElectLogsGrow(past.electLogs, past'.electLogs)
    requires past'.voteLogs == past.voteLogs
    ensures AcksKept(nodes', re', past')
  {
    hide Retained, BeatSliced, Acked, Extends, ElectLogsGrow;
    forall k | k in re'.holders
      ensures k.round < |re'.beats| && k.peer < |nodes'| && AckKept(nodes'[k.peer], k.peer, re'.beats[k.round], past')
    {
      var n, n', b := nodes[k.peer], nodes'[k.peer], re.beats[k.round];
      assert AckKept(n, k.peer, b, past) && re'.beats[k.round] == b;
      AckedStays(b, past.termLogs, past'.termLogs);
      var prefix := Acked(b, past.termLogs);
      RetainedInMore(prefix, b.term, n.log, n.disk.term, past.electLogs, n'.log, n'.disk.term, past'.electLogs);
      forall t | (k.peer, t) in past.voteLogs && t > b.term
        ensures Retained(prefix, b.term, past.voteLogs[(k.peer, t)], t - 1, past'.electLogs)
      {
        RetainedInMore(prefix, b.term, past.voteLogs[(k.peer, t)], t - 1, past.electLogs,
                       past.voteLogs[(k.peer, t)], t - 1, past'.electLogs);
      }
    }
  }

  /** Node v votes in term t, which has no leader yet: its log at that moment retains what it acknowledged. */
  lemma AcksVote(nodes: seq<Node>, re: Replication, past: Past, v: nat, t: nat)
    requires AcksKept(nodes, re, past) && v < |nodes| && nodes[v].disk.term <= t && t !in past.electLogs
    ensures AcksKept(nodes, re, past.(voteLogs := past.voteLogs[(v, t) := nodes[v].log]))
  {
    hide Acked;
    var past' := past.(voteLogs := past.voteLogs[(v, t) := nodes[v].log]);
    forall k | k in re.holders ensures AckKept(nodes[k.peer], k.peer, re.beats[k.round], past') {
      var n, b := nodes[k.peer], re.beats[k.round];
      assert AckKept(n, k.peer, b, past);
      if k.peer == v && b.term < t {
        RetainedBefore(Acked(b, past.termLogs), b.term, n.log, n.disk.term, t, past.electLogs);
      }
    }
  }

  lemma RetainedBefore(prefix: Log, t: nat, log: Log, bound: nat, later: nat, electLogs: map<nat, Log>)
    requires Retained(prefix, t, log, bound, electLogs) && bound <= later && later !in electLogs
    ensures Retained(prefix, t, log, later - 1, electLogs)
  {
    if !(prefix <= log) {
      var u :| t < u <= bound && Lacks(u, prefix, electLogs);
      assert t < u <= later - 1 && Lacks(u, prefix, electLogs);
    }
  }

  // votes

  lemma VoteCast(el: Elections, el': Elections, past: Past, past': Past, b: Ballot, v: nat, log: Log)
    requires VotesLogged(el, past) && b in past'.candLogs
    requires (v, b.term) in el.votes ==> el.votes[(v, b.term)] == b.candidate
    requires el'.votes == el.votes[(v, b.term) := b.candidate] && el'.leaders == el.leaders && el'.quorums == el.quorums
    requires forall x | x in past.candLogs :: x in past'.candLogs && past'.candLogs[x] == past.candLogs[x]
    requires past'.termLogs == past.termLogs && past'.voteLogs ==
      if b.term in el.leaders then past.voteLogs else past.voteLogs[(v, b.term) := log]
    requires b.term !in el.leaders ==> UpToDateLog(past'.candLogs[b], log) && Anchored(log, past.termLogs)
    ensures VotesLogged(el', past')
  {
    hide UpToDateLog, Anchored;
  }

  lemma ElectKeeps(c: Cluster, i: nat)
    requires Wf(c) && Elected(c) && Matching(c) && Remembering(c) && Alive(c, i)
    ensures Remembering(ElectStep(c, i))
  {
    hide Wf, Elected, Matching, VotesLogged, AcksKept, DoElection;
    var n := c.nodes[i];
    if n.status != Leader {
      var b, c' := Ballot(i, n.term + 1), ElectStep(c, i);
      NodeAt(c, i);
      ElectedNode(n);
      Knows(c, i);
      FreshBallot(c, b);
      VoteCast(c.el, c'.el, c.past, c'.past, b, i, n.log);
      if b.term !in c.el.leaders {
        AcksVote(c.nodes, c.re, c.past, i, b.term);
      }
      var mid := c.past.(voteLogs := c'.past.voteLogs);
      OneGrows(c.nodes, i, DoElection(n));
      ExtendsSelf(c.past.termLogs);
      AcksMove(c.nodes, c'.nodes, c.re, c'.re, mid, c'.past);
    }
  }

  lemma OneGrows(nodes: seq<Node>, i: nat, n: Node)
    requires i < |nodes| && nodes[i].log <= n.log && Keeps(nodes[i], n)
    ensures LogsGrow(nodes, nodes[i := n])
  {
    hide Node.Valid, Node.Durable;
  }

  lemma Knows(c: Cluster, i: nat)
    requires Matching(c) && i < |c.nodes|
    ensures Anchored(c.nodes[i].log, c.past.termLogs) && BeatsSliced(c.re.beats, c.past.termLogs)
    ensures c.past.electLogs.Keys == c.el.leaders.Keys && c.past.termLogs.Keys == c.el.leaders.Keys
    ensures c.past.candLogs.Keys == c.el.ballots.Keys && c.nodes[i].snapIndex == 0
  {
  }

  lemma FreshBallot(c: Cluster, b: Ballot)
    requires Wf(c) && Elected(c) && b.candidate < |c.nodes| && c.nodes[b.candidate].disk.term < b.term
    ensures b !in c.el.ballots && (b.candidate, b.term) !in c.el.votes
  {
  }

  lemma DeliverVoteKeeps(c: Cluster, k: VoteKey)
    requires Wf(c) && Elected(c) && Matching(c) && Remembering(c) && CanDeliverVote(c, k)
    ensures Remembering(DeliverVoteStep(c, k))
  {
    hide Wf, Elected, Matching, VotesLogged, AcksKept, RequestVote, AllSame, AllKeep, DeliverVoteStep, Keeps;
    var n, args, c', b := c.nodes[k.voter], c.el.ballots[k.ballot], DeliverVoteStep(c, k), k.ballot;
    var reply := RequestVote(n, args).1;
    DeliverVoteShape(c, k);
    DeliverVotePast(c, k);
    DeliverVoteMoves(c, k);
    SameLogsGrow(c.nodes, c'.nodes);
    Knows(c, k.voter);
    ExtendsSelf(c.past.termLogs);
    if reply.granted {
      Granting(c, k);
      VoteCast(c.el, c'.el, c.past, c'.past, b, k.voter, n.log);
      if b.term !in c.el.leaders {
        AcksVote(c.nodes, c.re, c.past, k.voter, b.term);
      }
    } else {
      VotesSame(c.el, c'.el, c.past, c'.past);
    }
    AcksMove(c.nodes, c'.nodes, c.re, c'.re, c'.past, c'.past);
  }

  lemma DeliverVotePast(c: Cluster, k: VoteKey)
    requires Wf(c) && CanDeliverVote(c, k)
    ensures var c', reply := DeliverVoteStep(c, k), RequestVote(c.nodes[k.voter], c.el.ballots[k.ballot]).1;
      && c'.re == c.re
      && c'.past == c.past.(voteLogs :=
           if reply.granted then VoteLogged(c, k.voter, k.ballot.term) else c.past.voteLogs)
  {
    hide Wf, RequestVote;
  }

  lemma Granting(c: Cluster, k: VoteKey)
    requires Wf(c) && Elected(c) && Matching(c) && CanDeliverVote(c, k)
    requires RequestVote(c.nodes[k.voter], c.el.ballots[k.ballot]).1.granted
    ensures k.ballot in c.past.candLogs && UpToDateLog(c.past.candLogs[k.ballot], c.nodes[k.voter].log)
    ensures c.nodes[k.voter].disk.term <= k.ballot.term
    ensures (k.voter, k.ballot.term) in c.el.votes ==> c.el.votes[(k.voter, k.ballot.term)] == k.ballot.candidate
  {
    hide BeatsSliced, TermLogsOk, CandidatesAnchored, NodesAnchored, LeadersOnTop, Anchored, Contiguous;
    hide CallsBacked, Tallies, Thrones, Reigns, WfBeats, WfInstalls, Heirs;
    LastOf(c.nodes[k.voter]);
  }

  lemma VotesSame(el: Elections, el': Elections, past: Past, past': Past)
    requires VotesLogged(el, past)
    requires el'.votes == el.votes && el'.leaders == el.leaders && el'.quorums == el.quorums
    requires past'.candLogs == past.candLogs && past'.voteLogs == past.voteLogs
    requires Extends(past.termLogs, past'.termLogs)
    ensures VotesLogged(el', past')
  {
    hide UpToDateLog, Anchored, Extends;
    forall vt | vt in past.voteLogs ensures Anchored(past.voteLogs[vt], past'.termLogs) {
      AnchoredGrows(past.voteLogs[vt], past.termLogs, past'.termLogs);
    }
  }

  lemma VoteAnsweredKeeps(c: Cluster, k: VoteKey)
    requires Wf(c) && Elected(c) && Matching(c) && Remembering(c) && CanHandleVote(c, k) && Unmoved(c, k)
    ensures Remembering(VoteAnsweredStep(c, k))
  {
    hide Wf, Elected, Matching, VotesLogged, AcksKept, AllSame, AllKeep, VoteReplied, Extends, BeatsSliced, Anchored;
    hide Unmoved;
    var i, b := k.ballot.candidate, k.ballot;
    var n, c' := c.nodes[i], VoteAnsweredStep(c, k);
    ElectionSafety.VoteAnsweredKeeps(c, k);
    MatchingSteps.VoteAnsweredKeeps(c, k);
    VoteAnsweredShape(c, k);
    VoteAnsweredMoves(c, k);
    SameLogsGrow(c.nodes, c'.nodes);
    Knows(c, i);
    assert c'.re == c.re && c'.el.votes == c.el.votes;
    assert c'.past == c.past.(electLogs := c'.past.electLogs, termLogs := c'.past.termLogs);
    if Wins(n, VoteReplied(n, c.el.counts[b], c.el.replies[k]).0) {
      assert c'.past.electLogs == c.past.electLogs[n.term := n.log] && n.term !in c.past.electLogs;
      ThroneLogged(c, c', b.term);
    } else {
      VotesSame(c.el, c'.el, c.past, c'.past);
    }
    AcksMove(c.nodes, c'.nodes, c.re, c'.re, c.past, c'.past);
  }

  lemma ThroneLogged(c: Cluster, c': Cluster, t: nat)
    requires VotesLogged(c.el, c.past) && Elected(c') && Extends(c.past.termLogs, c'.past.termLogs)
    requires c'.past.voteLogs == c.past.voteLogs && c'.past.candLogs == c.past.candLogs && c'.el.votes == c.el.votes
    requires t !in c.el.leaders && t in c'.el.leaders && c'.el.leaders == c.el.leaders[t := c'.el.leaders[t]]
    requires t in c'.el.quorums && c'.el.quorums == c.el.quorums[t := c'.el.quorums[t]]
    ensures VotesLogged(c'.el, c'.past)
  {
    hide VotesKept, CallsBacked, Tallies, Reigns, Anchored, UpToDateLog, Extends;
    forall vt | vt in c.past.voteLogs ensures Anchored(c.past.voteLogs[vt], c'.past.termLogs) {
      AnchoredGrows(c.past.voteLogs[vt], c.past.termLogs, c'.past.termLogs);
    }
    forall v | v in c'.el.quorums[t] ensures (v, t) in c.past.voteLogs {
      assert Backs(c'.el, v, Ballot(c'.el.leaders[t], t));
    }
  }

  lemma ClientStartKeeps(c: Cluster, i: nat, command: Op)
    requires Wf(c) && Elected(c) && Matching(c) && Remembering(c) && Alive(c, i)
    ensures Remembering(ClientStartStep(c, i, command))
  {
    hide Wf, Elected, Matching, VotesLogged, AcksKept, Start, Extends, BeatsSliced, Keeps;
    var n, c' := c.nodes[i], ClientStartStep(c, i, command);
    if n.status == Leader {
      NodeAt(c, i);
      MatchingSteps.ClientStartKeeps(c, i, command);
      Knows(c, i);
      Started(n, command);
      StartKeeps(n, command);
      OneGrows(c.nodes, i, Start(n, command));
      VotesSame(c.el, c'.el, c.past, c'.past);
      AcksMove(c.nodes, c'.nodes, c.re, c'.re, c.past, c'.past);
    }
  }

  lemma HeartBeatKeeps(c: Cluster, i: nat)
    requires Wf(c) && Elected(c) && Matching(c) && Remembering(c) && Alive(c, i)
    ensures Remembering(HeartBeatStep(c, i))
  {
    hide Wf, Elected, Matching, Remembering, FirstBeatFault, Sending;
    if c.nodes[i].status == Leader {
      SendingKeeps(c, i);
      SendingWf(c, i);
      NodeAt(c, i);
      MatchingSteps.SendingKeeps(c, i);
      if FirstBeatFault(c.nodes[i], 0).Some? {
        HaltRemembers(Sending(c, i), i, FirstBeatFault(c.nodes[i], 0).value);
      }
    }
  }

  lemma SendingKeeps(c: Cluster, i: nat)
    requires Wf(c) && Elected(c) && Matching(c) && Remembering(c) && Alive(c, i) && c.nodes[i].status == Leader
    ensures Remembering(Sending(c, i))
  {
    hide Wf, Elected, Matching, VotesLogged, AcksKept, BeatOf, Extends, BeatsSliced, LogsGrow, Keeps;
    var n, c' := c.nodes[i], Sending(c, i);
    NodeAt(c, i);
    Slices(c);
    ExtendsSelf(c.past.termLogs);
    NoGrowth(c.nodes);
    var mid := c.re.(beats := c'.re.beats);
    AcksMove(c.nodes, c.nodes, c.re, mid, c.past, c.past);
    LeaderAcks(c, i);
    HolderAdded(c.nodes, mid, c'.re, c.past, AppendKey(|c.re.beats|, i), n);
  }

  lemma HaltRemembers(c: Cluster, i: nat, a: Assertion)
    requires Wf(c) && Matching(c) && Remembering(c) && i < |c.nodes|
    ensures Remembering(Put(c, i, c.nodes[i].Halt(a)))
  {
    hide Wf, Matching, VotesLogged, AcksKept, Extends, LogsGrow, BeatsSliced;
    NodeAt(c, i);
    Slices(c);
    ExtendsSelf(c.past.termLogs);
    HaltKeeps(c.nodes[i], a);
    OneGrows(c.nodes, i, c.nodes[i].Halt(a));
    AcksMove(c.nodes, c.nodes[i := c.nodes[i].Halt(a)], c.re, c.re, c.past, c.past);
  }

  lemma NoGrowth(nodes: seq<Node>)
    ensures LogsGrow(nodes, nodes)
  {
  }

  lemma HolderAdded(nodes: seq<Node>, re: Replication, re': Replication, past: Past, k: AppendKey, holder: Node)
    requires AcksKept(nodes, re, past) && re'.beats == re.beats && re'.holders == re.holders[k := holder]
    requires k.round < |re.beats| && k.peer < |nodes| && AckKept(nodes[k.peer], k.peer, re.beats[k.round], past)
    ensures AcksKept(nodes, re', past)
  {
    hide AckKept;
  }

  lemma LeaderAcks(c: Cluster, i: nat)
    requires Wf(c) && Elected(c) && Matching(c) && Remembering(c) && i < |c.nodes| && c.nodes[i].status == Leader
    ensures AckKept(c.nodes[i], i, BeatOf(c.nodes[i]), c.past)
  {
    hide BeatsSliced, TermLogsOk, CandidatesAnchored, NodesAnchored, Stood, Heirs, AcksKept, Anchored, Contiguous;
    hide CallsBacked, Tallies, Thrones, Reigns, WfBeats, WfInstalls, WfVotes;
    var n := c.nodes[i];
    LastOf(n);
    assert BeatOf(n).term == n.term && BeatOf(n).last == |n.log|;
    assert n.log[..|n.log|] == n.log;
    forall t | (i, t) in c.past.voteLogs ensures t <= n.disk.term {
      assert Holds(n, t, c.el.votes[(i, t)]);
    }
  }

  lemma DeliverAppendKeeps(c: Cluster, k: AppendKey)
    requires Wf(c) && Elected(c) && Traced(c) && Matching(c) && Remembering(c) && CanDeliverAppend(c, k)
    requires Clean(c, DeliverAppend(k))
    ensures Remembering(DeliverAppendStep(c, k))
  {
    hide Wf, Elected, Traced, Matching, VotesLogged, AcksKept, AppendEntries, Clean, Extends, BeatsSliced, Keeps;
    var b, c' := c.re.beats[k.round], DeliverAppendStep(c, k);
    var n := c.nodes[k.peer];
    var (n', reply) := AppendEntries(n, b.sent[k.peer]);
    DeliverLegal(c, k);
    Delivered(c, k);
    DeliverAppendMoves(c, k);
    Knows(c, k.peer);
    ExtendsSelf(c.past.termLogs);
    VotesSame(c.el, c'.el, c.past, c'.past);
    if reply.success {
      AcksRewrite(c, k);
      NewAck(c, k);
      HolderAdded(c'.nodes, c.re.(replies := c'.re.replies), c'.re, c.past, k, n');
    } else {
      OneGrows(c.nodes, k.peer, n');
      AcksMove(c.nodes, c'.nodes, c.re, c'.re, c.past, c'.past);
    }
  }

  lemma AcksRewrite(c: Cluster, k: AppendKey)
    requires Wf(c) && Traced(c) && Matching(c) && Remembering(c) && CanDeliverAppend(c, k)
    requires Clean(c, DeliverAppend(k))
    requires AppendEntries(c.nodes[k.peer], c.re.beats[k.round].sent[k.peer]).1.success
    ensures AcksKept(DeliverAppendStep(c, k).nodes, c.re.(replies := DeliverAppendStep(c, k).re.replies), c.past)
  {
    hide Wf, Traced, Matching, VotesLogged, AppendEntries, Clean, BeatSliced, Keeps, Retained, Acked;
    var b, c' := c.re.beats[k.round], DeliverAppendStep(c, k);
    var n, n' := c.nodes[k.peer], AppendEntries(c.nodes[k.peer], b.sent[k.peer]).0;
    Delivered(c, k);
    DeliverAppendMoves(c, k);
    SliceFacts(c, b);
    forall h | h in c.re.holders ensures AckKept(c'.nodes[h.peer], h.peer, c.re.beats[h.round], c.past) {
      var a := c.re.beats[h.round];
      assert AckKept(c.nodes[h.peer], h.peer, a, c.past);
      if h.peer == k.peer {
        SliceFacts(c, a);
        DurableBelow(c, k.peer);
        RetainedRewrite(Acked(a, c.past.termLogs), a.term, n.log, n'.log, b.term, b.last, n.disk.term,
                        c.past.electLogs, c.past.termLogs);
      }
    }
  }

  lemma DurableBelow(c: Cluster, i: nat)
    requires Wf(c) && i < |c.nodes|
    ensures c.nodes[i].disk.term <= c.nodes[i].term
  {
  }

  lemma SliceFacts(c: Cluster, b: Beat)
    requires Matching(c) && b in c.re.beats
    ensures b.term in c.past.termLogs && b.last <= |c.past.termLogs[b.term]|
    ensures Acked(b, c.past.termLogs) == c.past.termLogs[b.term][..b.last] <= c.past.termLogs[b.term]
    ensures Shaped(c.past.electLogs, c.past.termLogs)
  {
    var r :| 0 <= r < |c.re.beats| && c.re.beats[r] == b;
    assert BeatSliced(c.re.beats[r], c.past.termLogs);
  }

  lemma NewAck(c: Cluster, k: AppendKey)
    requires Wf(c) && Elected(c) && Traced(c) && Matching(c) && Remembering(c) && CanDeliverAppend(c, k)
    requires Clean(c, DeliverAppend(k))
    requires AppendEntries(c.nodes[k.peer], c.re.beats[k.round].sent[k.peer]).1.success
    ensures AckKept(AppendEntries(c.nodes[k.peer], c.re.beats[k.round].sent[k.peer]).0, k.peer, c.re.beats[k.round],
        c.past)
  {
    hide Wf, Traced, Matching, AcksKept, AppendEntries, Clean, Keeps, Acked, UpToDateLog, Anchored;
    hide CallsBacked, Tallies, Thrones, Reigns;
    var b, n := c.re.beats[k.round], c.nodes[k.peer];
    Delivered(c, k);
    SliceFacts(c, b);
    DurableBelow(c, k.peer);
    forall t | (k.peer, t) in c.past.voteLogs ensures t <= n.disk.term {
      assert Holds(n, t, c.el.votes[(k.peer, t)]);
    }
  }

  // ---------- all steps ----------

  lemma QuietMemory(c: Cluster, e: Event)
    requires Wf(c) && !e.Elect? && !e.DeliverVote? && !e.VoteAnswered? && !e.ClientStart? && !e.HeartBeat?
    requires !e.DeliverAppend?
    ensures Step(c, e).past.voteLogs == c.past.voteLogs && Step(c, e).re.holders == c.re.holders
    ensures Step(c, e).re.beats == c.re.beats
  {
    hide WfNodes, WfVotes, WfBeats, WfInstalls, AppendReplied, InstallSnapshot, SnapshotReplied;
    hide ApplyLogs, Snapshot, Restart;
  }

  lemma QuietKeeps(c: Cluster, e: Event)
    requires Wf(c) && Matching(c) && Remembering(c)
    requires !e.Elect? && !e.DeliverVote? && !e.VoteAnswered? && !e.ClientStart? && !e.HeartBeat? && !e.DeliverAppend?
    requires !e.TakeSnapshot?
    ensures Remembering(Step(c, e))
  {
    hide Wf, Step, Matching, VotesLogged, AcksKept, AllSame, AllKeep, Extends, BeatsSliced, LogsGrow, Plain;
    var c' := Step(c, e);
    QuietMemory(c, e);
    MatchingSteps.QuietPast(c, e);
    ElectionSafety.QuietShape(c, e);
    StepMoves(c, e);
    PlainOf(c);
    StepKeepsPlain(c, e);
    SameLogsGrow(c.nodes, c'.nodes);
    ExtendsSelf(c.past.termLogs);
    VotesSame(c.el, c'.el, c.past, c'.past);
    Slices(c);
    AcksMove(c.nodes, c'.nodes, c.re, c'.re, c.past, c'.past);
  }

  lemma Slices(c: Cluster)
    requires Matching(c)
    ensures BeatsSliced(c.re.beats, c.past.termLogs)
  {
  }

  lemma StepKeepsRemembering(c: Cluster, e: Event)
    requires Wf(c) && Elected(c) && Traced(c) && Matching(c) && Remembering(c) && Clean(c, e) && !e.TakeSnapshot?
    requires e.VoteAnswered? ==> Unmoved(c, e.vote)
    ensures Remembering(Step(c, e))
  {
    hide Wf, Elected, Traced, Matching, Remembering, Unmoved;
    match e
    case Elect(i) => if Alive(c, i) { ElectKeeps(c, i); }
    case DeliverVote(k) => if CanDeliverVote(c, k) { DeliverVoteKeeps(c, k); }
    case VoteAnswered(k) => if CanHandleVote(c, k) { VoteAnsweredKeeps(c, k); }
    case ClientStart(i, command) => if Alive(c, i) { ClientStartKeeps(c, i, command); }
    case HeartBeat(i) => if Alive(c, i) { HeartBeatKeeps(c, i); }
    case DeliverAppend(k) => if CanDeliverAppend(c, k) { DeliverAppendKeeps(c, k); }
    case _ => QuietKeeps(c, e);
  }

  // ---------- over steps ----------

  /** Commits and the logs leaders won with are remembered for good. */
  ghost predicate Onward(c: Cluster, c': Cluster)
  {
    && c.re.commits <= c'.re.commits
    && ElectLogsGrow(c.past.electLogs, c'.past.electLogs) && Extends(c.past.termLogs, c'.past.termLogs)
  }

  lemma StepOnward(c: Cluster, e: Event)
    requires Wf(c) && Elected(c) && Traced(c) && Matching(c) && Clean(c, e) && !e.TakeSnapshot?
    requires e.VoteAnswered? ==> Unmoved(c, e.vote)
    ensures Onward(c, Step(c, e))
  {
    hide Wf, Elected, Traced, Matching, Extends, Step, Clean, Unmoved;
    StepKeepsMatching(c, e);
    CommitsStay(c, e);
    ElectLogsStay(c, e);
  }

  lemma CommitsStay(c: Cluster, e: Event)
    requires Wf(c)
    ensures c.re.commits <= Step(c, e).re.commits
  {
    hide WfNodes, WfVotes, WfBeats, WfInstalls, AppendEntries, InstallSnapshot, SnapshotReplied, RequestVote;
    hide ApplyLogs, Snapshot, Restart;
  }

  lemma ElectLogsStay(c: Cluster, e: Event)
    requires Wf(c) && Elected(c) && Matching(c)
    ensures ElectLogsGrow(c.past.electLogs, Step(c, e).past.electLogs)
  {
    hide Wf, Elected, Matching, VoteReplied;
    match e
    case VoteAnswered(k) => if CanHandleVote(c, k) {
      ElectionSafety.VoteAnsweredKeeps(c, k);
      KeysAgree(c);
      VoteAnsweredShape(c, k);
    }
    case Elect(i) => if Alive(c, i) && c.nodes[i].status != Leader { }
    case ClientStart(i, command) =>
    case HeartBeat(i) => if Alive(c, i) { HeartBeatPast(c, i); }
    case DeliverAppend(k) => if CanDeliverAppend(c, k) { }
    case _ =>
      hide Step;
      MatchingSteps.QuietPast(c, e);
  }

  lemma HeartBeatPast(c: Cluster, i: nat)
    requires Wf(c) && Alive(c, i)
    ensures HeartBeatStep(c, i).past == c.past
  {
  }

  lemma TopExtends(termLogs: map<nat, Log>, termLogs': map<nat, Log>, t: nat)
    requires Extends(termLogs, termLogs') && t in termLogs
    ensures t in termLogs' && termLogs[t] <= termLogs'[t]
  {
  }

  lemma OnTop(c: Cluster, b: nat)
    requires Matching(c) && b < |c.nodes| && c.nodes[b].status == Leader
    ensures c.nodes[b].term in c.past.electLogs && c.past.electLogs[c.nodes[b].term] <= c.nodes[b].log
    ensures c.nodes[b].term in c.past.termLogs && c.past.termLogs[c.nodes[b].term] == c.nodes[b].log
  {
    var t := c.nodes[b].term;
    assert LeaderShape(t, c.past.electLogs[t], c.past.termLogs[t]);
  }

  /** The leader that commits is still on top of its term when it has done so. */
  lemma CommitterOnTop(c: Cluster, k: AppendKey)
    requires Wf(c) && Replicating(c) && CanHandleAppend(c, k) && Matching(Step(c, AppendAnswered(k)))
    requires c.re.beats[k.round].leader < |c.nodes|
    requires var a := c.re.beats[k.round].leader; AppendAnsweredStep(c, k).nodes[a].commitIndex > c.nodes[a].commitIndex
    ensures var a := c.re.beats[k.round].leader; var c' := AppendAnsweredStep(c, k); var t := c.nodes[a].term;
      && t in c'.past.termLogs && c'.past.termLogs[t] == c'.nodes[a].log
      && c'.nodes[a].commitIndex <= |c'.nodes[a].log|
  {
    hide WfVotes, WfBeats, WfInstalls, Replicating, Contiguous;
    var a, c' := c.re.beats[k.round].leader, AppendAnsweredStep(c, k);
    ReplyFacts(c, k);
    assert Wf(c') by { AppendAnsweredWf(c, k); }
    assert c'.nodes[a].Valid();
    assert c'.nodes[a].status == Leader && c'.nodes[a].term == c.nodes[a].term;
    OnTop(c', a);
    PlainAt(c', a);
  }
}
