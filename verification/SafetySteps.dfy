/** What a clean step keeps of State Machine Safety (section 5.4 of the Raft paper) in a cluster whose logs are
    whole: every commit index, of a node or in a request, and every command applied is backed by the commit of
    some leader, and commits of different leaders agree. */
module SafetySteps {
  import opened RaftTypes
  import opened RaftNode
  import opened NodeInvariants
  import opened RaftCluster
  import opened ElectionSafety
  import opened EntryIdentity
  import opened Commitment
  import opened CleanRuns
  import opened LogAlgebra
  import opened MatchingSteps
  import opened CompletenessSteps

  // ---------- the invariant ----------

  ghost predicate Applying(c: Cluster)
  {
    && NodesBacked(c.nodes, c.re.commits, c.past.termLogs)
    && BeatsBacked(c.re.beats, c.re.commits, c.past.termLogs)
    && AppliedBacked(c.past.applied, c.re.commits, c.past.termLogs)
  }

  /** The first k entries of the log were committed by a leader of term t or before. */
  ghost predicate Backed(log: Log, k: nat, t: nat, commits: set<Commit>, termLogs: map<nat, Log>)
  {
    k == 0 || exists m :: m in commits && BackedBy(m, log, k, t, termLogs)
  }

  predicate BackedBy(m: Commit, log: Log, k: nat, t: nat, termLogs: map<nat, Log>)
  {
    && m.term <= t && m.term in termLogs && k <= m.index <= |termLogs[m.term]| && k <= |log|
    && log[..k] == termLogs[m.term][..k]
  }

  ghost predicate NodesBacked(nodes: seq<Node>, commits: set<Commit>, termLogs: map<nat, Log>)
  {
    forall i | 0 <= i < |nodes| :: Backed(nodes[i].log, nodes[i].commitIndex, nodes[i].term, commits, termLogs)
  }

  ghost predicate BeatBacked(b: Beat, commits: set<Commit>, termLogs: map<nat, Log>)
  {
    b.term in termLogs && forall p | p in b.sent ::
      Backed(termLogs[b.term], b.sent[p].leaderCommit, b.term, commits, termLogs)
  }

  ghost predicate BeatsBacked(beats: seq<Beat>, commits: set<Commit>, termLogs: map<nat, Log>)
  {
    forall r | 0 <= r < |beats| :: BeatBacked(beats[r], commits, termLogs)
  }

  predicate AppliedBy(m: Commit, x: ApplyMsg, termLogs: map<nat, Log>)
  {
    && m.term in termLogs && 1 <= x.index <= m.index <= |termLogs[m.term]|
    && termLogs[m.term][x.index - 1].command == x.command
  }

  ghost predicate AppliedBacked(applied: set<ApplyMsg>, commits: set<Commit>, termLogs: map<nat, Log>)
  {
    forall x | x in applied :: exists m :: m in commits && AppliedBy(m, x, termLogs)
  }

  // ---------- committed prefixes agree ----------

  lemma BackedMore(log: Log, k: nat, t: nat, commits: set<Commit>, termLogs: map<nat, Log>,
                   log': Log, t': nat, commits': set<Commit>, termLogs': map<nat, Log>)
    requires Backed(log, k, t, commits, termLogs) && log <= log' && t <= t'
    requires commits <= commits' && Extends(termLogs, termLogs')
    ensures Backed(log', k, t', commits', termLogs')
  {
    if k > 0 {
      var m :| m in commits && BackedBy(m, log, k, t, termLogs);
      assert termLogs[m.term] <= termLogs'[m.term];
      assert log'[..k] == log[..k] && termLogs'[m.term][..k] == termLogs[m.term][..k];
      assert BackedBy(m, log', k, t', termLogs');
    }
  }

  /** What a leader of term u starts with, for every commit of an earlier term. */
  ghost predicate Complete(commits: set<Commit>, electLogs: map<nat, Log>, termLogs: map<nat, Log>)
  {
    forall m, u | m in commits && u in electLogs && u > m.term :: CarriesCommit(m, u, electLogs, termLogs)
  }

  predicate CarriesCommit(m: Commit, u: nat, electLogs: map<nat, Log>, termLogs: map<nat, Log>)
    requires u in electLogs
  {
    m.term in termLogs && m.index <= |termLogs[m.term]| && termLogs[m.term][..m.index] <= electLogs[u]
  }

  /** A committed prefix learned in term t survives in the leader log of term u >= t. */
  lemma BackedInLeader(log: Log, k: nat, t: nat, u: nat, commits: set<Commit>, electLogs: map<nat, Log>,
                       termLogs: map<nat, Log>)
    requires Backed(log, k, t, commits, termLogs) && k <= |log| && t <= u && u in termLogs
    requires Complete(commits, electLogs, termLogs) && Shaped(electLogs, termLogs)
    ensures log[..k] <= termLogs[u]
  {
    if k > 0 {
      var m :| m in commits && BackedBy(m, log, k, t, termLogs);
      if m.term < u {
        assert CarriesCommit(m, u, electLogs, termLogs) && LeaderShape(u, electLogs[u], termLogs[u]);
        PrefixTrans(termLogs[m.term][..m.index], electLogs[u], termLogs[u]);
        assert log[..k] == termLogs[m.term][..m.index][..k];
      }
    }
  }

  /** Any two committed prefixes: one is a prefix of the other. */
  lemma BackedAgree(f: Log, k: nat, t: nat, g: Log, l: nat, u: nat,
                    commits: set<Commit>, electLogs: map<nat, Log>, termLogs: map<nat, Log>)
    requires Backed(f, k, t, commits, termLogs) && Backed(g, l, u, commits, termLogs) && k <= |f| && l <= |g|
    requires Complete(commits, electLogs, termLogs) && Shaped(electLogs, termLogs)
    ensures forall j | 0 <= j < k && j < l :: f[j] == g[j]
  {
    if k > 0 && l > 0 {
      var m :| m in commits && BackedBy(m, f, k, t, termLogs);
      var o :| o in commits && BackedBy(o, g, l, u, termLogs);
      CommitsAgree(m, o, commits, electLogs, termLogs);
      forall j | 0 <= j < k && j < l ensures f[j] == g[j] {
        assert f[..k][j] == termLogs[m.term][..k][j] && g[..l][j] == termLogs[o.term][..l][j];
      }
    }
  }

  lemma CommitsAgree(m: Commit, o: Commit, commits: set<Commit>, electLogs: map<nat, Log>, termLogs: map<nat, Log>)
    requires m in commits && o in commits && m.term in termLogs && o.term in termLogs
    requires m.index <= |termLogs[m.term]| && o.index <= |termLogs[o.term]|
    requires Complete(commits, electLogs, termLogs) && Shaped(electLogs, termLogs)
    ensures forall j | 0 <= j < m.index && j < o.index :: termLogs[m.term][j] == termLogs[o.term][j]
  {
    if m.term < o.term {
      CarriedEntries(m, o.term, commits, electLogs, termLogs);
    } else if o.term < m.term {
      CarriedEntries(o, m.term, commits, electLogs, termLogs);
    }
  }

  lemma CarriedEntries(m: Commit, u: nat, commits: set<Commit>, electLogs: map<nat, Log>, termLogs: map<nat, Log>)
    requires m in commits && m.term in termLogs && m.index <= |termLogs[m.term]| && m.term < u && u in termLogs
    requires Complete(commits, electLogs, termLogs) && Shaped(electLogs, termLogs)
    ensures m.index <= |termLogs[u]| && forall j | 0 <= j < m.index :: termLogs[m.term][j] == termLogs[u][j]
  {
    assert CarriesCommit(m, u, electLogs, termLogs) && LeaderShape(u, electLogs[u], termLogs[u]);
    PrefixTrans(termLogs[m.term][..m.index], electLogs[u], termLogs[u]);
    forall j | 0 <= j < m.index ensures termLogs[m.term][j] == termLogs[u][j] {
      assert termLogs[m.term][..m.index][j] == termLogs[u][j];
    }
  }

  // ---------- steps that raise no commit index ----------

  /** A crash forgets the commit index; any other such step keeps it and lowers no term. */
  predicate Calm(n: Node, n': Node)
  {
    n'.commitIndex == 0 || (n'.commitIndex == n.commitIndex && n.term <= n'.term)
  }

  ghost predicate AllCalm(nodes: seq<Node>, nodes': seq<Node>)
  {
    |nodes'| == |nodes| && forall i | 0 <= i < |nodes| :: Calm(nodes[i], nodes'[i])
  }

  lemma NodesMove(nodes: seq<Node>, nodes': seq<Node>, commits: set<Commit>, commits': set<Commit>,
                  termLogs: map<nat, Log>, termLogs': map<nat, Log>)
    requires NodesBacked(nodes, commits, termLogs) && LogsGrow(nodes, nodes') && AllCalm(nodes, nodes')
    requires commits <= commits' && Extends(termLogs, termLogs')
    ensures NodesBacked(nodes', commits', termLogs')
  {
    hide Extends;
    forall i | 0 <= i < |nodes'| && nodes'[i].commitIndex > 0
      ensures Backed(nodes'[i].log, nodes'[i].commitIndex, nodes'[i].term, commits', termLogs')
    {
      assert Calm(nodes[i], nodes'[i]) && nodes[i].log <= nodes'[i].log;
      BackedMore(nodes[i].log, nodes[i].commitIndex, nodes[i].term, commits, termLogs,
                 nodes'[i].log, nodes'[i].term, commits', termLogs');
    }
  }

  lemma BeatsMove(beats: seq<Beat>, commits: set<Commit>, commits': set<Commit>, termLogs: map<nat, Log>,
                  termLogs': map<nat, Log>)
    requires BeatsBacked(beats, commits, termLogs) && commits <= commits' && Extends(termLogs, termLogs')
    ensures BeatsBacked(beats, commits', termLogs')
  {
    hide Backed;
    forall r, p | 0 <= r < |beats| && p in beats[r].sent
      ensures beats[r].term in termLogs'
      ensures Backed(termLogs'[beats[r].term], beats[r].sent[p].leaderCommit, beats[r].term, commits', termLogs')
    {
      var t := beats[r].term;
      assert BeatBacked(beats[r], commits, termLogs);
      BackedMore(termLogs[t], beats[r].sent[p].leaderCommit, t, commits, termLogs, termLogs'[t], t, commits',
          termLogs');
    }
    forall r | 0 <= r < |beats| ensures BeatBacked(beats[r], commits', termLogs') {
      assert BeatBacked(beats[r], commits, termLogs);
    }
  }

  lemma AppliedMove(applied: set<ApplyMsg>, commits: set<Commit>, commits': set<Commit>, termLogs: map<nat, Log>,
                    termLogs': map<nat, Log>)
    requires AppliedBacked(applied, commits, termLogs) && commits <= commits' && Extends(termLogs, termLogs')
    ensures AppliedBacked(applied, commits', termLogs')
  {
    forall x | x in applied ensures exists m :: m in commits' && AppliedBy(m, x, termLogs') {
      var m :| m in commits && AppliedBy(m, x, termLogs);
      assert termLogs[m.term] <= termLogs'[m.term];
      assert AppliedBy(m, x, termLogs');
    }
  }

  lemma CalmKeeps(c: Cluster, c': Cluster)
    requires Applying(c) && LogsGrow(c.nodes, c'.nodes) && AllCalm(c.nodes, c'.nodes) && Onward(c, c')
    requires c'.re.beats == c.re.beats && c'.past.applied == c.past.applied
    ensures Applying(c')
  {
    hide NodesBacked, BeatsBacked, AppliedBacked, LogsGrow, AllCalm, Extends;
    NodesMove(c.nodes, c'.nodes, c.re.commits, c'.re.commits, c.past.termLogs, c'.past.termLogs);
    BeatsMove(c.re.beats, c.re.commits, c'.re.commits, c.past.termLogs, c'.past.termLogs);
    AppliedMove(c.past.applied, c.re.commits, c'.re.commits, c.past.termLogs, c'.past.termLogs);
  }

  // ---------- the steps that raise one, or apply ----------

  /** A single node that changed, with its commit index backed. */
  lemma OneNode(nodes: seq<Node>, i: nat, n: Node, commits: set<Commit>, termLogs: map<nat, Log>)
    requires NodesBacked(nodes, commits, termLogs) && i < |nodes|
    requires Backed(n.log, n.commitIndex, n.term, commits, termLogs)
    ensures NodesBacked(nodes[i := n], commits, termLogs)
  {
    hide Backed;
  }

  lemma NodePart(c: Cluster, i: nat)
    requires Applying(c) && i < |c.nodes|
    ensures Backed(c.nodes[i].log, c.nodes[i].commitIndex, c.nodes[i].term, c.re.commits, c.past.termLogs)
  {
  }

  lemma ApplyKeeps(c: Cluster, i: nat)
    requires Wf(c) && Matching(c) && Applying(c) && Alive(c, i)
    ensures Applying(ApplyStep(c, i))
  {
    hide Wf, Matching, BeatsBacked, ApplyLogs, Backed, NodesBacked, AppliedBacked;
    var n := c.nodes[i];
    NodeAt(c, i);
    PlainAt(c, i);
    NodePart(c, i);
    var (n', msgs) := ApplyLogs(n);
    Applied(n, c.re.commits, c.past.termLogs);
    OneNode(c.nodes, i, n', c.re.commits, c.past.termLogs);
    AppliedAdds(c.past.applied, msgs, c.re.commits, c.past.termLogs);
  }

  lemma Applied(n: Node, commits: set<Commit>, termLogs: map<nat, Log>)
    requires n.Valid() && n.snapIndex == 0 && Backed(n.log, n.commitIndex, n.term, commits, termLogs)
    ensures var (n', msgs) := ApplyLogs(n);
      && n'.log == n.log && n'.commitIndex == n.commitIndex && n'.term == n.term
      && forall x | x in msgs :: exists m :: m in commits && AppliedBy(m, x, termLogs)
  {
    var (n', msgs) := ApplyLogs(n);
    if msgs != [] {
      var m :| m in commits && BackedBy(m, n.log, n.commitIndex, n.term, termLogs);
      forall x | x in msgs ensures AppliedBy(m, x, termLogs) {
        assert n.log[..n.commitIndex][x.index - 1] == termLogs[m.term][..n.commitIndex][x.index - 1];
      }
    }
  }

  lemma AppliedAdds(applied: set<ApplyMsg>, msgs: seq<ApplyMsg>, commits: set<Commit>, termLogs: map<nat, Log>)
    requires AppliedBacked(applied, commits, termLogs)
    requires forall x | x in msgs :: exists m :: m in commits && AppliedBy(m, x, termLogs)
    ensures AppliedBacked(applied + (set x | x in msgs), commits, termLogs)
  {
  }

  lemma HeartBeatKeeps(c: Cluster, i: nat)
    requires Wf(c) && Matching(c) && Applying(c) && Alive(c, i)
    ensures Applying(HeartBeatStep(c, i))
  {
    hide Wf, Matching, NodesBacked, BeatsBacked, AppliedBacked, Backed, BeatOf, FirstBeatFault, BeatBacked;
    var n := c.nodes[i];
    NodeAt(c, i);
    PlainAt(c, i);
    NodePart(c, i);
    if n.status == Leader {
      BeatCommits(n, c.re.commits, c.past.termLogs);
      BeatAdds(c.re.beats, BeatOf(n), c.re.commits, c.past.termLogs);
      if FirstBeatFault(n, 0).Some? {
        var n' := n.Halt(FirstBeatFault(n, 0).value);
        OneNode(c.nodes, i, n', c.re.commits, c.past.termLogs);
      }
    }
  }

  lemma BeatCommits(n: Node, commits: set<Commit>, termLogs: map<nat, Log>)
    requires n.Valid() && n.term in termLogs && termLogs[n.term] == n.log
    requires Backed(n.log, n.commitIndex, n.term, commits, termLogs)
    ensures BeatBacked(BeatOf(n), commits, termLogs)
  {
  }

  lemma BeatAdds(beats: seq<Beat>, b: Beat, commits: set<Commit>, termLogs: map<nat, Log>)
    requires BeatsBacked(beats, commits, termLogs) && BeatBacked(b, commits, termLogs)
    ensures BeatsBacked(beats + [b], commits, termLogs)
  {
    hide BeatBacked;
  }

  lemma AppendAnsweredKeeps(c: Cluster, k: AppendKey)
    requires Wf(c) && Replicating(c) && Matching(c) && Applying(c) && CanHandleAppend(c, k)
    requires Matching(AppendAnsweredStep(c, k))
    ensures Applying(AppendAnsweredStep(c, k))
  {
    hide Wf, Replicating, Matching, NodesBacked, BeatsBacked, AppliedBacked, AppendReplied, Backed, Extends;
    hide AllSame, AllKeep, AppendAnsweredStep, ElectLogsGrow, Applying;
    var c' := AppendAnsweredStep(c, k);
    ReplyFacts(c, k);
    AnswerShape(c, k);
    AppendAnsweredMoves(c, k);
    SameLogsGrow(c.nodes, c'.nodes);
    OnwardSame(c, c');
    var i := c.re.beats[k.round].leader;
    if c'.nodes[i].commitIndex > c.nodes[i].commitIndex {
      CommitterOnTop(c, k);
      var m := MovedCommit(c, k);
      NodePart(c, i);
      Parts(c);
      NoGrowth(c.nodes);
      NodesMove(c.nodes, c.nodes, c.re.commits, c'.re.commits, c.past.termLogs, c.past.termLogs);
      BeatsMove(c.re.beats, c.re.commits, c'.re.commits, c.past.termLogs, c'.past.termLogs);
      AppliedMove(c.past.applied, c.re.commits, c'.re.commits, c.past.termLogs, c'.past.termLogs);
      SelfBacked(c'.nodes[i], m, c'.re.commits, c'.past.termLogs);
      OneNode(c.nodes, i, c'.nodes[i], c'.re.commits, c'.past.termLogs);
      Joined(c');
    } else {
      CalmKeeps(c, c');
    }
  }

  lemma Parts(c: Cluster)
    requires Applying(c)
    ensures NodesBacked(c.nodes, c.re.commits, c.past.termLogs)
    ensures BeatsBacked(c.re.beats, c.re.commits, c.past.termLogs)
    ensures AppliedBacked(c.past.applied, c.re.commits, c.past.termLogs)
  {
  }

  lemma Joined(c: Cluster)
    requires NodesBacked(c.nodes, c.re.commits, c.past.termLogs)
    requires BeatsBacked(c.re.beats, c.re.commits, c.past.termLogs)
    requires AppliedBacked(c.past.applied, c.re.commits, c.past.termLogs)
    ensures Applying(c)
  {
  }

  lemma AnswerShape(c: Cluster, k: AppendKey)
    requires Wf(c) && CanHandleAppend(c, k) && c.re.beats[k.round].leader < |c.nodes|
    ensures var c' := AppendAnsweredStep(c, k); var i := c.re.beats[k.round].leader;
      && c'.re.beats == c.re.beats && c'.past == c.past && c.re.commits <= c'.re.commits && |c'.nodes| == |c.nodes|
      && c'.nodes == c.nodes[i := c'.nodes[i]]
      && c'.nodes[i].lastApplied == c.nodes[i].lastApplied && c.nodes[i].term <= c'.nodes[i].term
      && c'.nodes[i].commitIndex >= c.nodes[i].commitIndex
      && (c'.nodes[i].commitIndex > c.nodes[i].commitIndex ==> c'.nodes[i].term == c.nodes[i].term)
  {
    hide WfVotes, WfInstalls, WfNodes;
    assert WfBeat(c.nodes, c.re.beats[k.round]);
  }

  lemma OnwardSame(c: Cluster, c': Cluster)
    requires c'.past == c.past && c.re.commits <= c'.re.commits
    ensures Onward(c, c') && Extends(c.past.termLogs, c'.past.termLogs)
  {
  }

  lemma SelfBacked(n: Node, m: Commit, commits: set<Commit>, termLogs: map<nat, Log>)
    requires m in commits && m.term == n.term && m.index == n.commitIndex <= |n.log|
    requires n.term in termLogs && termLogs[n.term] == n.log
    ensures Backed(n.log, n.commitIndex, n.term, commits, termLogs)
  {
    assert BackedBy(m, n.log, n.commitIndex, n.term, termLogs);
  }

  /** All commits so far are carried by all leaders so far of later terms. */
  lemma CommitsComplete(c: Cluster)
    requires Elected(c) && Matching(c) && Remembering(c) && Replicating(c)
    ensures Complete(c.re.commits, c.past.electLogs, c.past.termLogs) && Shaped(c.past.electLogs, c.past.termLogs)
  {
    hide Elected, Remembering, Matching, Requests, Answers, Holdings, Counting, HoldersKnown, AllSteady, CommitOk;
    KeysAgree(c);
    ShapedOf(c);
    forall m, u | m in c.re.commits && u in c.past.electLogs && u > m.term
      ensures CarriesCommit(m, u, c.past.electLogs, c.past.termLogs)
    {
      Completeness(c, m, u);
    }
  }

  lemma ShapedOf(c: Cluster)
    requires Matching(c)
    ensures Shaped(c.past.electLogs, c.past.termLogs)
  {
  }

  /** The follower's log and commit index after an accepted request. */
  lemma Accepted(log: Log, k: nat, t: nat, log': Log, k': nat, u: nat, end: nat, leaderCommit: nat,
                 commits: set<Commit>, electLogs: map<nat, Log>, termLogs: map<nat, Log>)
    requires Complete(commits, electLogs, termLogs) && Shaped(electLogs, termLogs)
    requires Backed(log, k, t, commits, termLogs) && k <= |log| && t <= u && u in termLogs && end <= |termLogs[u]|
    requires log' == if end >= |log| then termLogs[u][..end] else log
    requires termLogs[u][..end] <= log'
    requires Backed(termLogs[u], leaderCommit, u, commits, termLogs) && leaderCommit <= end
    requires k' == if leaderCommit > k then Min(leaderCommit, |log'|) else k
    ensures k <= k' <= |log'| && Backed(log', k', u, commits, termLogs)
  {
    BackedInLeader(log, k, t, u, commits, electLogs, termLogs);
    if end >= |log| {
      assert log'[..k] == termLogs[u][..k];
    }
    if leaderCommit > k {
      assert |log'| >= end;
      var m :| m in commits && BackedBy(m, termLogs[u], leaderCommit, u, termLogs);
      assert log'[..k'] == termLogs[u][..end][..k'] == termLogs[u][..leaderCommit][..k'];
      assert BackedBy(m, log', k', u, termLogs);
    } else if k > 0 {
      var m :| m in commits && BackedBy(m, log, k, t, termLogs);
      assert BackedBy(m, log', k, u, termLogs);
    }
  }

  lemma DeliverAppendKeeps(c: Cluster, k: AppendKey)
    requires Wf(c) && Elected(c) && Traced(c) && Replicating(c) && Matching(c) && Remembering(c) && Applying(c)
    requires CanDeliverAppend(c, k) && Clean(c, DeliverAppend(k))
    ensures Applying(DeliverAppendStep(c, k))
  {
    hide Wf, Elected, Traced, Replicating, Matching, Remembering, Applying, NodesBacked, BeatsBacked, AppliedBacked;
    hide AppendEntries, Backed, Complete, Shaped, Clean, Extends, Keeps, DeliverAppendStep;
    hide AllSame, AllKeep, ElectLogsGrow;
    var b, c' := c.re.beats[k.round], DeliverAppendStep(c, k);
    var n := c.nodes[k.peer];
    var (n', reply) := AppendEntries(n, b.sent[k.peer]);
    DeliverLegal(c, k);
    Delivered(c, k);
    DeliverAppendMoves(c, k);
    AcceptShape(c, k);
    NodePart(c, k.peer);
    Parts(c);
    if reply.success {
      CommitsComplete(c);
      BeatPart(c, k);
      Accepted(n.log, n.commitIndex, n.term, n'.log, n'.commitIndex, b.term, b.last, b.sent[k.peer].leaderCommit,
               c.re.commits, c.past.electLogs, c.past.termLogs);
      OneNode(c.nodes, k.peer, n', c.re.commits, c.past.termLogs);
      Joined(c');
    } else {
      OneGrows(c.nodes, k.peer, n');
      OnwardSame(c, c');
      CalmKeeps(c, c');
    }
  }

  lemma BeatPart(c: Cluster, k: AppendKey)
    requires Wf(c) && Replicating(c) && Matching(c) && Applying(c) && CanDeliverAppend(c, k)
    ensures var b := c.re.beats[k.round]; var args := b.sent[k.peer]; var tl := c.past.termLogs;
      && b.term in tl && b.last <= |tl[b.term]| && args.leaderCommit <= b.last
      && Backed(tl[b.term], args.leaderCommit, b.term, c.re.commits, tl)
  {
    hide Wf, Backed, Answers, Holdings, Counting, HoldersKnown, AllSteady, Committed, NodesBacked;
    hide Stood, Anchored, Heirs, CandidatesAnchored;
    assert RequestOk(c.re.beats[k.round], c.re.beats[k.round].sent[k.peer]);
    assert BeatSliced(c.re.beats[k.round], c.past.termLogs);
    assert BeatBacked(c.re.beats[k.round], c.re.commits, c.past.termLogs);
  }

  lemma AcceptShape(c: Cluster, k: AppendKey)
    requires Wf(c) && Traced(c) && Matching(c) && CanDeliverAppend(c, k)
    ensures var b, c' := c.re.beats[k.round], DeliverAppendStep(c, k);
      var n, args := c.nodes[k.peer], b.sent[k.peer]; var (n', reply) := AppendEntries(n, args);
      && n.term <= n'.term && n'.snapIndex == 0
      && (reply.success ==>
        n'.commitIndex == (if args.leaderCommit > n.commitIndex then Min(args.leaderCommit, |n'.log|)
          else n.commitIndex))
      && (!reply.success ==> n'.commitIndex == n.commitIndex)
      && c'.past == c.past && c'.re.beats == c.re.beats && c'.re.commits == c.re.commits
  {
    hide Wf, Traced, AppendEntries;
    DeliverLegal(c, k);
    PlainAt(c, k.peer);
    CommitRule(c.nodes[k.peer], c.re.beats[k.round].sent[k.peer]);
  }

  lemma CommitRule(n: Node, args: AppendArgs)
    requires n.Valid() && n.snapIndex == 0 && AppendEntries(n, args).0.halted.None?
    ensures var (n', reply) := AppendEntries(n, args);
      && n.term <= n'.term && n'.snapIndex == 0
      && (reply.success ==>
        n'.commitIndex == (if args.leaderCommit > n.commitIndex then Min(args.leaderCommit, |n'.log|)
          else n.commitIndex))
      && (!reply.success ==> n'.commitIndex == n.commitIndex)
  {
  }

  lemma OneCalm(nodes: seq<Node>, i: nat, n: Node)
    requires i < |nodes| && Calm(nodes[i], n)
    ensures AllCalm(nodes, nodes[i := n])
  {
  }

  lemma CalmSteps(n: Node, args: VoteArgs, count: nat, reply: VoteReply, command: Op)
    ensures Calm(n, DoElection(n)) && Calm(n, RequestVote(n, args).0) && Calm(n, VoteReplied(n, count, reply).0)
    ensures Calm(n, Start(n, command))
  {
  }

  lemma QuietCalm(c: Cluster, e: Event)
    requires Wf(c) && (e.Elect? || e.DeliverVote? || e.VoteAnswered? || e.ClientStart?)
    ensures var c' := Step(c, e);
      && AllCalm(c.nodes, c'.nodes) && c'.re == c.re
      && c'.past.applied == c.past.applied
  {
    hide Wf, Calm, DoElection, RequestVote, VoteReplied, Start;
    var noArgs, noReply, noOp := VoteArgs(0, 0, 0, 0), VoteReply(0, false, Normal), Op("", "", "", "", 0);
    NoneCalm(c.nodes);
    match e
    case Elect(i) => if Alive(c, i) {
      CalmSteps(c.nodes[i], noArgs, 0, noReply, noOp);
      OneCalm(c.nodes, i, DoElection(c.nodes[i]));
    }
    case DeliverVote(k) => if CanDeliverVote(c, k) {
      CalmSteps(c.nodes[k.voter], c.el.ballots[k.ballot], 0, noReply, noOp);
      OneCalm(c.nodes, k.voter, RequestVote(c.nodes[k.voter], c.el.ballots[k.ballot]).0);
    }
    case VoteAnswered(k) => if CanHandleVote(c, k) {
      var i, count := k.ballot.candidate, c.el.counts[k.ballot];
      CalmSteps(c.nodes[i], noArgs, count, c.el.replies[k], noOp);
      OneCalm(c.nodes, i, VoteReplied(c.nodes[i], count, c.el.replies[k]).0);
    }
    case ClientStart(i, command) => if Alive(c, i) {
      CalmSteps(c.nodes[i], noArgs, 0, noReply, command);
      OneCalm(c.nodes, i, Start(c.nodes[i], command));
    }
  }

  lemma NoneCalm(nodes: seq<Node>)
    ensures AllCalm(nodes, nodes)
  {
  }

  lemma StartGrows(c: Cluster, i: nat, command: Op)
    requires Wf(c) && Alive(c, i)
    ensures LogsGrow(c.nodes, ClientStartStep(c, i, command).nodes)
  {
    hide Wf, Keeps;
    NodeAt(c, i);
    StartKeeps(c.nodes[i], command);
    NoGrowth(c.nodes);
    OneGrows(c.nodes, i, Start(c.nodes[i], command));
  }

  lemma QuietGrows(c: Cluster, e: Event)
    requires Wf(c) && (e.Elect? || e.DeliverVote? || e.VoteAnswered? || e.ClientStart?)
    ensures LogsGrow(c.nodes, Step(c, e).nodes)
  {
    hide Wf, AllSame, AllKeep, LogsGrow;
    if e.ClientStart? {
      NoGrowth(c.nodes);
      if Alive(c, e.i) {
        StartGrows(c, e.i, e.command);
      }
    } else {
      StepMoves(c, e);
      SameLogsGrow(c.nodes, Step(c, e).nodes);
    }
  }

  // ---------- all steps ----------

  lemma StepKeepsApplying(c: Cluster, e: Event)
    requires Wf(c) && Elected(c) && Traced(c) && Replicating(c) && Matching(c) && Remembering(c) && Applying(c)
    requires Clean(c, e) && !e.TakeSnapshot? && !e.Crash? && (e.VoteAnswered? ==> Unmoved(c, e.vote))
    ensures Applying(Step(c, e))
  {
    hide Unmoved, Wf, Elected, Traced, Replicating, Matching, Remembering, Applying, Onward, LogsGrow, AllCalm;
    match e
    case HeartBeat(i) => if Alive(c, i) { HeartBeatKeeps(c, i); }
    case DeliverAppend(k) => if CanDeliverAppend(c, k) { DeliverAppendKeeps(c, k); }
    case AppendAnswered(k) => if CanHandleAppend(c, k) {
      StepKeepsMatching(c, e);
      AppendAnsweredKeeps(c, k);
    }
    case SendSnapshot(i, p) => PlainOf(c);
    case DeliverInstall(k) => PlainOf(c);
    case InstallAnswered(k) => PlainOf(c);
    case Apply(i) => if Alive(c, i) { ApplyKeeps(c, i); }
    case Crash(i) =>
    case TakeSnapshot(i, index) =>
    case _ =>
      hide Step;
      QuietCalm(c, e);
      QuietGrows(c, e);
      StepOnward(c, e);
      CalmKeeps(c, Step(c, e));
  }
}
