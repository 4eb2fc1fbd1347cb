/** Clean runs, snapshots included: their shadows keep the invariants of Log Matching, Leader Completeness
    and State Machine Safety, and every snapshot, taken, sent or installed, stands for committed entries. */
module CleanShadows {
  import opened RaftTypes
  import opened RaftNode
  import opened NodeInvariants
  import opened RaftCluster
  import opened Quorums
  import opened ElectionSafety
  import opened EntryIdentity
  import opened Commitment
  import opened CleanRuns
  import opened LogAlgebra
  import opened MatchingSteps
  import opened CompletenessSteps
  import opened SafetySteps
  import opened FullLogs
  import opened Shadows
  import opened ShadowRuns

  // ---------- the invariant ----------

  ghost predicate Settled(c: Cluster, s: Shadow)
  {
    && Matching(s.full) && Remembering(s.full) && Applying(s.full)
    && Waiting(s.full)
    && SnapsBacked(c.nodes, s.full)
    && PayloadsBacked(c.sn.installs, s.payloads, s.full)
  }

  /** While a term has no leader, a candidate's log is the one it stood with, or it has been replaced by
      a snapshot at least as long. */
  ghost predicate Waiting(d: Cluster)
  {
    forall b | b in d.past.candLogs && b.candidate < |d.nodes| && b.term !in d.el.leaders ::
      d.nodes[b.candidate].disk.term == b.term ==>
        Waits(d.nodes[b.candidate].log, d.past.candLogs[b], b.term, d.re.commits, d.past.termLogs)
  }

  ghost predicate Waits(log: Log, cand: Log, t: nat, commits: set<Commit>, termLogs: map<nat, Log>)
  {
    log == cand || (|cand| <= |log| && Backed(log, |log|, t, commits, termLogs))
  }

  ghost predicate SnapsBacked(nodes: seq<Node>, d: Cluster)
  {
    |d.nodes| == |nodes| && forall i | 0 <= i < |nodes| ::
      Backed(d.nodes[i].log, nodes[i].snapIndex, nodes[i].disk.term, d.re.commits, d.past.termLogs)
  }

  ghost predicate PayloadsBacked(installs: seq<InstallCall>, payloads: seq<Log>, d: Cluster)
  {
    |payloads| == |installs| && forall k | 0 <= k < |installs| ::
      Backed(payloads[k], |payloads[k]|, installs[k].args.term, d.re.commits, d.past.termLogs)
  }

  // ---------- logs ----------

  lemma BackedPart(log: Log, k: nat, t: nat, commits: set<Commit>, termLogs: map<nat, Log>, log': Log, k': nat, t': nat)
    requires Backed(log, k, t, commits, termLogs) && k' <= k <= |log| && k' <= |log'| && t <= t'
    requires log'[..k'] == log[..k']
    ensures Backed(log', k', t', commits, termLogs)
  {
    if k' > 0 {
      var m :| m in commits && BackedBy(m, log, k, t, termLogs);
      assert log'[..k'] == log[..k][..k'] == termLogs[m.term][..k][..k'] == termLogs[m.term][..k'];
      assert BackedBy(m, log', k', t', termLogs);
    }
  }

  lemma BackedLater(log: Log, k: nat, t: nat, d: Cluster, t': nat, d': Cluster)
    requires Backed(log, k, t, d.re.commits, d.past.termLogs) && t <= t' && Onward(d, d')
    ensures Backed(log, k, t', d'.re.commits, d'.past.termLogs)
  {
    BackedMore(log, k, t, d.re.commits, d.past.termLogs, log, t', d'.re.commits, d'.past.termLogs);
  }

  /** A committed log is a leader's as far as it goes. */
  lemma BackedAnchored(log: Log, t: nat, commits: set<Commit>, electLogs: map<nat, Log>, termLogs: map<nat, Log>)
    requires Backed(log, |log|, t, commits, termLogs) && Shaped(electLogs, termLogs)
    requires forall u | u in termLogs :: Anchored(termLogs[u], termLogs)
    ensures Anchored(log, termLogs) && TermsUpTo(log, t)
  {
    if log != [] {
      var m :| m in commits && BackedBy(m, log, |log|, t, termLogs);
      var whole := termLogs[m.term];
      assert log == log[..|log|] == whole[..|log|];
      PrefixAnchored(whole, |log|, termLogs);
      assert LeaderShape(m.term, electLogs[m.term], whole);
      forall k | 0 <= k < |log| ensures log[k].logTerm <= t {
        assert log[k] == whole[k];
      }
    }
  }

  /** A clean install leaves the log as it was, with the payload as a prefix, or the payload alone. */
  lemma CleanInstalled(log: Log, payload: Log, termLogs: map<nat, Log>)
    requires Anchored(log, termLogs) && Anchored(payload, termLogs)
    requires |payload| < |log| ==> TermOf(log, |payload|) == TermOf(payload, |payload|)
    ensures var log' := payload + (if |payload| < |log| then log[|payload|..] else []);
      payload <= log' && log' == if |log| <= |payload| then payload else log
  {
    if |payload| < |log| {
      SamePrefix(log, payload, |payload|, termLogs);
      assert log == log[..|payload|] + log[|payload|..];
    }
  }

  /** What was acknowledged survives it. */
  lemma RetainedInstall(prefix: Log, t: nat, log: Log, bound: nat, payload: Log, u: nat,
                        commits: set<Commit>, electLogs: map<nat, Log>, termLogs: map<nat, Log>)
    requires Retained(prefix, t, log, bound, electLogs) && Shaped(electLogs, termLogs)
    requires Complete(commits, electLogs, termLogs) && t in termLogs && prefix <= termLogs[t] && bound <= u
    requires Backed(payload, |payload|, u, commits, termLogs)
    ensures Retained(prefix, t, if |log| <= |payload| then payload else log, u, electLogs)
  {
    if !(prefix <= log) {
      var w :| t < w <= bound && Lacks(w, prefix, electLogs);
      assert t < w <= u && Lacks(w, prefix, electLogs);
    } else if |log| <= |payload| && payload != [] {
      var m :| m in commits && BackedBy(m, payload, |payload|, u, termLogs);
      assert payload == payload[..|payload|] == termLogs[m.term][..|payload|];
      if m.term > t && !(prefix <= electLogs[m.term]) {
        assert Lacks(m.term, prefix, electLogs);
      } else {
        CommonLeader(prefix, t, m, commits, electLogs, termLogs);
      }
    }
  }

  /** An acknowledged prefix and a commit at least as long, the later leader having both. */
  lemma CommonLeader(prefix: Log, t: nat, m: Commit, commits: set<Commit>, electLogs: map<nat, Log>,
                     termLogs: map<nat, Log>)
    requires Shaped(electLogs, termLogs) && Complete(commits, electLogs, termLogs) && m in commits && m.term in termLogs
    requires m.index <= |termLogs[m.term]| && t in termLogs && prefix <= termLogs[t]
    requires m.term > t ==> prefix <= electLogs[m.term]
    ensures forall k | 0 <= k < |prefix| && k < m.index :: prefix[k] == termLogs[m.term][k]
  {
    if m.term > t {
      assert LeaderShape(m.term, electLogs[m.term], termLogs[m.term]);
      PrefixTrans(prefix, electLogs[m.term], termLogs[m.term]);
    } else if m.term < t {
      CarriedEntries(m, t, commits, electLogs, termLogs);
    }
  }

  // ---------- elections ----------

  /** The winner still has the log it stood with: a snapshot that replaced it would hold a commit the
      candidate did not have, and the majority that voted for it has all of them. */
  lemma WinnerUnmoved(d: Cluster, k: VoteKey)
    requires Wf(d) && Elected(d) && Matching(d) && Remembering(d) && Replicating(d) && Waiting(d)
    ensures Unmoved(d, k)
  {
    hide Wf, Elected, Matching, Remembering, Replicating, Waiting, VoteReplied, Backed, Wins;
    if CanHandleVote(d, k) && Winning(d, k) {
      var b, log := k.ballot, d.nodes[k.ballot.candidate].log;
      var quorum := d.el.counted[b] + {k.voter} + {b.candidate};
      WinnerBacked(d, k);
      WinnerWaits(d, b);
      var cand := d.past.candLogs[b];
      if log != cand {
        CommittedOf(d);
        WaitsSame(d, b, log, quorum);
      }
    }
  }

  lemma WinnerBacked(d: Cluster, k: VoteKey)
    requires Wf(d) && Elected(d) && Remembering(d) && CanHandleVote(d, k) && Winning(d, k)
    ensures var b := k.ballot; var quorum := d.el.counted[b] + {k.voter} + {b.candidate};
      && IsQuorum(quorum, |d.nodes|) && (forall v | v in quorum :: VoteRemembered(d, v, b))
      && b.term !in d.el.leaders && b in d.el.ballots && d.nodes[b.candidate].term == b.term
  {
    hide Wf, AcksKept, UpToDateLog, VotesKept, Reigns;
    var b := k.ballot;
    WfKey(d, k);
    WinningReply(d.nodes[b.candidate], d.el.counts[b], d.el.replies[k]);
    MajorityIsFirst(|d.nodes|, d.el, k);
    BackersVoted(|d.nodes|, d.el, k);
  }

  lemma WinningReply(n: Node, count: nat, reply: VoteReply)
    requires Wins(n, VoteReplied(n, count, reply).0)
    ensures reply.granted && reply.term == n.term && count + 1 >= n.Majority()
  {
  }

  lemma WinnerWaits(d: Cluster, b: Ballot)
    requires Wf(d) && Matching(d) && Waiting(d) && b in d.el.ballots && b.term !in d.el.leaders
    requires b.candidate < |d.nodes| && d.nodes[b.candidate].term == b.term
    ensures b in d.past.candLogs
    ensures Waits(d.nodes[b.candidate].log, d.past.candLogs[b], b.term, d.re.commits, d.past.termLogs)
  {
    hide WfBeats, WfInstalls, Waits, TermLogsOk, NodesAnchored, BeatsSliced, Heirs, CandidatesAnchored;
    assert Sound(d.nodes[b.candidate]);
  }

  lemma CommittedOf(d: Cluster)
    requires Replicating(d)
    ensures forall m | m in d.re.commits :: CommitOk(|d.nodes|, d.re.beats, d.re.holders, m)
  {
    hide Requests, Answers, Holdings, HoldersKnown, Counting, AllSteady, CommitOk;
  }

  lemma WaitsSame(d: Cluster, b: Ballot, log: Log, quorum: set<nat>)
    requires Elected(d) && Matching(d) && Remembering(d) && b in d.past.candLogs && b.term !in d.el.leaders
    requires forall m | m in d.re.commits :: CommitOk(|d.nodes|, d.re.beats, d.re.holders, m)
    requires IsQuorum(quorum, |d.nodes|) && forall v | v in quorum :: VoteRemembered(d, v, b)
    requires Waits(log, d.past.candLogs[b], b.term, d.re.commits, d.past.termLogs)
    ensures log == d.past.candLogs[b]
  {
    hide Elected, Matching, Remembering, CommitOk, VoteRemembered;
    var cand := d.past.candLogs[b];
    if log != cand && log != [] {
      var m :| m in d.re.commits && BackedBy(m, log, |log|, b.term, d.past.termLogs);
      KeysAgree(d);
      assert m.term != b.term;
      CandidateComplete(d, m, b, quorum);
    }
  }

  // ---------- steps the shadow shares ----------

  lemma CleanMirror(c: Cluster, s: Shadow, e: Event)
    requires Wf(c) && Wf(s.full) && Follows(c, s) && Shared(c, e) && Clean(c, e)
    ensures Clean(s.full, e) && !e.TakeSnapshot? && !e.Crash?
  {
    hide Wf, Follows, AppendEntries, Conflicts, Mirror;
    if e.DeliverAppend? {
      var k := e.append;
      var args := c.re.beats[k.round].sent[k.peer];
      SentMirror(c, s, k);
      NodeMirror(c, s, k.peer);
      SameView(c.nodes[k.peer], s.full.nodes[k.peer]);
      SameFields(c.nodes[k.peer], s.full.nodes[k.peer]);
      ClashMirror(c.nodes[k.peer], s.full.nodes[k.peer], args.prevIndex, args.entries);
    }
  }

  lemma SharedKeeps(c: Cluster, s: Shadow, e: Event)
    requires Wf(c) && Wf(s.full) && Follows(c, s) && Sane(s) && Settled(c, s) && Shared(c, e) && Clean(c, e)
    ensures var d' := ShadowStep(c, s, e).full; Matching(d') && Remembering(d') && Applying(d') && Onward(s.full, d')
  {
    hide Wf, Follows, Elected, Traced, Replicating, Matching, Remembering, Applying, Waiting, SnapsBacked;
    hide PayloadsBacked;
    hide Shared, Clean, ShadowStep, Unmoved, Onward, Extends, Step;
    CleanMirror(c, s, e);
    SharedStep(c, s, e);
    if e.VoteAnswered? {
      WinnerUnmoved(s.full, e.vote);
    }
    StepKeepsMatching(s.full, e);
    StepKeepsRemembering(s.full, e);
    StepKeepsApplying(s.full, e);
    StepOnward(s.full, e);
  }

  // ---------- steps it does not share ----------

  /** The node takes over a snapshot. */
  predicate TakesOver(c: Cluster, e: Event)
  {
    && e.DeliverInstall? && CanDeliverInstall(c, e.install)
    && Takes(c.nodes[c.sn.installs[e.install].peer], c.sn.installs[e.install].args)
  }

  lemma CalmNode(n: Node, m: Node, args: AppendArgs, index: int, call: InstallArgs)
    requires n.Valid() && Mirror(n, m)
    ensures !Accepts(n, args) ==> CalmTurn(m, AppendEntries(n, args).0)
    ensures CalmTurn(m, Snapshot(n, index)) && CalmTurn(m, Restart(n))
    ensures !Takes(n, call) ==> CalmTurn(m, InstallSnapshot(n, call).0)
  {
  }

  lemma CalmReply(n: Node, m: Node, p: nat, call: InstallArgs, term: nat)
    requires n.Valid() && Mirror(n, m) && p < n.peers
    ensures CalmTurn(m, SnapshotReplied(n, p, call, term))
  {
  }

  predicate CalmTurn(m: Node, n': Node) { Calm(m, Unfold(n', m.log)) && SameLog(m, Unfold(n', m.log)) }

  ghost predicate CalmTurns(nodes: seq<Node>, nodes': seq<Node>)
  {
    AllSame(nodes, nodes') && AllCalm(nodes, nodes')
  }

  lemma OneTurns(nodes: seq<Node>, i: nat, n: Node)
    requires i < |nodes| && CalmTurn(nodes[i], n)
    ensures CalmTurns(nodes, nodes[i := Unfold(n, nodes[i].log)])
  {
  }

  lemma NoneTurns(nodes: seq<Node>)
    ensures CalmTurns(nodes, nodes)
  {
  }

  lemma AsideCalm(c: Cluster, s: Shadow, e: Event)
    requires Wf(c) && Wf(s.full) && Follows(c, s) && !Shared(c, e) && !TakesOver(c, e)
    ensures CalmTurns(s.full.nodes, ShadowStep(c, s, e).full.nodes)
  {
    hide Wf, Follows, Mirror, CalmTurn, CalmTurns, Accepts, AppendEntries, Snapshot, InstallSnapshot, SnapshotReplied;
    hide Restart, Unfold, Takes;
    var noArgs, noCall := AppendArgs(0, 0, 0, 0, [], 0), InstallArgs(0, 0, 0, 0);
    var nodes := s.full.nodes;
    Sizes(c, s);
    NoneTurns(nodes);
    match e
    case DeliverAppend(k) => if CanDeliverAppend(c, k) {
      var args := c.re.beats[k.round].sent[k.peer];
      NodeMirror(c, s, k.peer);
      CalmNode(c.nodes[k.peer], nodes[k.peer], args, 0, noCall);
      OneTurns(nodes, k.peer, AppendEntries(c.nodes[k.peer], args).0);
    }
    case TakeSnapshot(i, index) => if Alive(c, i) {
      NodeMirror(c, s, i);
      CalmNode(c.nodes[i], nodes[i], noArgs, index, noCall);
      OneTurns(nodes, i, Snapshot(c.nodes[i], index));
    }
    case SendSnapshot(i, p) =>
    case DeliverInstall(k) => if CanDeliverInstall(c, k) {
      var call := c.sn.installs[k];
      NodeMirror(c, s, call.peer);
      CalmNode(c.nodes[call.peer], nodes[call.peer], noArgs, 0, call.args);
      OneTurns(nodes, call.peer, InstallSnapshot(c.nodes[call.peer], call.args).0);
    }
    case InstallAnswered(k) => if CanHandleInstall(c, k) {
      var call := c.sn.installs[k];
      CallHere(c, k);
      NodeMirror(c, s, call.sender);
      CalmReply(c.nodes[call.sender], nodes[call.sender], call.peer, call.args, c.sn.replies[k]);
      OneTurns(nodes, call.sender, SnapshotReplied(c.nodes[call.sender], call.peer, call.args, c.sn.replies[k]));
    }
    case Crash(i) => if i < |c.nodes| {
      NodeMirror(c, s, i);
      CrashNodes(c, i);
      CrashNodes(s.full, i);
      CalmNode(c.nodes[i], nodes[i], noArgs, 0, noCall);
      OneTurns(nodes, i, Restart(c.nodes[i]));
      assert nodes[i := Restart(nodes[i])][i := Unfold(Restart(c.nodes[i]), nodes[i].log)] ==
        nodes[i := Unfold(Restart(c.nodes[i]), nodes[i].log)];
    }
  }

  lemma CallHere(c: Cluster, k: nat)
    requires Wf(c) && CanHandleInstall(c, k)
    ensures c.sn.installs[k].peer < |c.nodes| && c.sn.installs[k].sender < |c.nodes|
  {
  }

  lemma AsideKeeps(c: Cluster, s: Shadow, e: Event)
    requires Wf(c) && Wf(s.full) && Follows(c, s) && Sane(s) && Settled(c, s) && !Shared(c, e) && !TakesOver(c, e)
    ensures var d' := ShadowStep(c, s, e).full; Matching(d') && Remembering(d') && Applying(d') && Onward(s.full, d')
  {
    hide Wf, Follows, Elected, Traced, Replicating, Matching, VotesLogged, AcksKept, Applying, Waiting, SnapsBacked;
    hide PayloadsBacked, ShadowStep, Extends, Step, AllKeep, NoCoups, AllSame, AllCalm, LogsGrow, BeatsSliced;
    hide TakesOver;
    var d, d' := s.full, ShadowStep(c, s, e).full;
    AsideCalm(c, s, e);
    AsideShape(c, s, e);
    ShadowMoves(c, s, e);
    ShadowWf(c, s, e);
    SoundNodes(d);
    AsidePlain(c, s, e);
    SameLogsKeep(d, d');
    ExtendsSelf(d.past.termLogs);
    SameLogsGrow(d.nodes, d'.nodes);
    VotesSame(d.el, d'.el, d.past, d'.past);
    Slices(d);
    AcksMove(d.nodes, d'.nodes, d.re, d'.re, d.past, d'.past);
    CalmKeeps(d, d');
  }

  lemma AsidePlain(c: Cluster, s: Shadow, e: Event)
    requires Wf(c) && Wf(s.full) && Follows(c, s)
    ensures Plain(ShadowStep(c, s, e).full)
  {
    hide Wf, ShadowStep, Step, CallsMirror, PayloadsFit;
    StepShadows(c, s, e);
  }

  // ---------- snapshots taken over ----------

  /** The node of the shadow after it took over the payload. */
  predicate TookOver(m: Node, payload: Log, t: nat, m': Node)
  {
    && m'.log == (if |m.log| <= |payload| then payload else m.log) && payload <= m'.log
    && m'.snapIndex == 0 && m'.status == Follower && m'.term == m'.disk.term == t && m.disk.term <= t && m.term <= t
    && m'.commitIndex == Max(m.commitIndex, |payload|) && m.commitIndex <= |m.log|
  }

  lemma TakeOverShape(c: Cluster, s: Shadow, k: nat)
    requires Wf(c) && Wf(s.full) && Follows(c, s) && TakesOver(c, DeliverInstall(k))
    ensures var d, p := s.full, c.sn.installs[k].peer;
      && p < |d.nodes| && k < |s.payloads|
      && ShadowStep(c, s, DeliverInstall(k)) == s.(full := d.(nodes := d.nodes[p :=
           Unfold(InstallSnapshot(c.nodes[p], c.sn.installs[k].args).0,
                  Installed(c.nodes[p], d.nodes[p].log, c.sn.installs[k].args, s.payloads[k]))]))
  {
    hide Wf, NodesMirror, CallsMirror, InstallSnapshot, Installed, Takes;
    Sizes(c, s);
  }

  lemma TookOverNode(n: Node, m: Node, args: InstallArgs, payload: Log, termLogs: map<nat, Log>)
    requires Sound(n) && Mirror(n, m) && Takes(n, args) && CleanInstall(n, args) && Carries(args, payload)
    requires Anchored(m.log, termLogs) && Anchored(payload, termLogs)
    ensures TookOver(m, payload, args.term, Unfold(InstallSnapshot(n, args).0, Installed(n, m.log, args, payload)))
  {
    hide Anchored, Contiguous;
    if |payload| < |m.log| {
      SameView(n, m);
      assert m.TermAt(args.snapIndex) == n.TermAt(args.snapIndex);
    }
    CleanInstalled(m.log, payload, termLogs);
  }

  lemma PayloadFacts(c: Cluster, s: Shadow, k: nat)
    requires Settled(c, s) && k < |c.sn.installs|
    ensures k < |s.payloads|
    ensures var payload, t, d := s.payloads[k], c.sn.installs[k].args.term, s.full;
      && Backed(payload, |payload|, t, d.re.commits, d.past.termLogs)
      && Anchored(payload, d.past.termLogs) && TermsUpTo(payload, t)
  {
    hide Backed, Remembering, Applying, Waiting, SnapsBacked, NodesAnchored, LeadersOnTop, TermsPast, BeatsSliced;
    hide Anchored;
    var d := s.full;
    assert forall u | u in d.past.termLogs :: Anchored(d.past.termLogs[u], d.past.termLogs);
    BackedAnchored(s.payloads[k], c.sn.installs[k].args.term, d.re.commits, d.past.electLogs, d.past.termLogs);
  }

  lemma TakeOver(c: Cluster, s: Shadow, k: nat) returns (m': Node)
    requires Wf(c) && Wf(s.full) && Follows(c, s) && Settled(c, s) && TakesOver(c, DeliverInstall(k))
    requires Clean(c, DeliverInstall(k))
    ensures var d, p := s.full, c.sn.installs[k].peer;
      && p < |d.nodes| && k < |s.payloads|
      && ShadowStep(c, s, DeliverInstall(k)) == s.(full := d.(nodes := d.nodes[p := m']))
      && TookOver(d.nodes[p], s.payloads[k], c.sn.installs[k].args.term, m')
  {
    hide Wf, Follows, Settled, InstallSnapshot, Installed, TookOver, Mirror, Sound, Carries, CleanInstall, Takes;
    hide ShadowStep;
    var p := c.sn.installs[k].peer;
    TakeOverShape(c, s, k);
    NodeMirror(c, s, p);
    PayloadFacts(c, s, k);
    PayloadFits(c, s, k);
    LogAnchored(s.full, p) by { MatchingOf(c, s); }
    TookOverNode(c.nodes[p], s.full.nodes[p], c.sn.installs[k].args, s.payloads[k], s.full.past.termLogs);
    m' := Unfold(InstallSnapshot(c.nodes[p], c.sn.installs[k].args).0,
                 Installed(c.nodes[p], s.full.nodes[p].log, c.sn.installs[k].args, s.payloads[k]));
  }

  lemma MatchingOf(c: Cluster, s: Shadow)
    requires Settled(c, s)
    ensures Matching(s.full) && Remembering(s.full) && Applying(s.full)
  {
  }

  lemma LogAnchored(d: Cluster, i: nat)
    requires Matching(d) && i < |d.nodes|
    ensures Anchored(d.nodes[i].log, d.past.termLogs)
  {
  }

  lemma PayloadFits(c: Cluster, s: Shadow, k: nat)
    requires Follows(c, s) && k < |c.sn.installs|
    ensures k < |s.payloads| && Carries(c.sn.installs[k].args, s.payloads[k])
  {
  }

  lemma TakeOverMatching(d: Cluster, p: nat, payload: Log, t: nat, m': Node)
    requires Matching(d) && p < |d.nodes| && TookOver(d.nodes[p], payload, t, m')
    requires Anchored(payload, d.past.termLogs) && TermsUpTo(payload, t)
    ensures Matching(d.(nodes := d.nodes[p := m']))
  {
    hide Anchored, TermLogsOk, BeatsSliced, Stood, CandidatesAnchored, Heirs;
    assert TermsUpTo(d.nodes[p].log, d.nodes[p].disk.term);
    NodeRewritten(d.nodes, p, m', d.past.termLogs);
  }

  lemma TakeOverAcks(d: Cluster, p: nat, payload: Log, t: nat, m': Node)
    requires Matching(d) && Remembering(d) && p < |d.nodes| && TookOver(d.nodes[p], payload, t, m')
    requires Backed(payload, |payload|, t, d.re.commits, d.past.termLogs)
    requires Complete(d.re.commits, d.past.electLogs, d.past.termLogs)
    ensures Remembering(d.(nodes := d.nodes[p := m']))
  {
    hide Matching, VotesLogged, Retained, Acked, Backed, Complete, Shaped;
    var nodes := d.nodes[p := m'];
    forall h | h in d.re.holders ensures AckKept(nodes[h.peer], h.peer, d.re.beats[h.round], d.past) {
      var a, n := d.re.beats[h.round], d.nodes[h.peer];
      assert AckKept(n, h.peer, a, d.past);
      if h.peer == p {
        SliceFacts(d, a);
        RetainedInstall(Acked(a, d.past.termLogs), a.term, n.log, n.disk.term, payload, t, d.re.commits,
                        d.past.electLogs, d.past.termLogs);
      }
    }
  }

  lemma TakeOverApplying(d: Cluster, p: nat, payload: Log, t: nat, m': Node)
    requires Applying(d) && p < |d.nodes| && TookOver(d.nodes[p], payload, t, m')
    requires Backed(payload, |payload|, t, d.re.commits, d.past.termLogs)
    ensures Applying(d.(nodes := d.nodes[p := m']))
  {
    hide Backed, BeatsBacked, AppliedBacked;
    var m, commits, termLogs := d.nodes[p], d.re.commits, d.past.termLogs;
    if |payload| < m.commitIndex {
      BackedPart(m.log, m.commitIndex, m.term, commits, termLogs, m'.log, m'.commitIndex, t);
    } else {
      BackedPart(payload, |payload|, t, commits, termLogs, m'.log, m'.commitIndex, t);
    }
    OneNode(d.nodes, p, m', commits, termLogs);
  }

  lemma TakeOverKeeps(c: Cluster, s: Shadow, e: Event)
    requires Wf(c) && Wf(s.full) && Follows(c, s) && Sane(s) && Settled(c, s) && TakesOver(c, e) && Clean(c, e)
    ensures var d' := ShadowStep(c, s, e).full; Matching(d') && Remembering(d') && Applying(d') && Onward(s.full, d')
  {
    hide Wf, Follows, Elected, Traced, Replicating, Matching, Remembering, Applying, Settled, Backed, TookOver;
    hide Complete;
    hide ShadowStep, Shaped, Anchored, Extends;
    var k, d := e.install, s.full;
    PayloadFits(c, s, k);
    var p, payload, t := c.sn.installs[k].peer, s.payloads[k], c.sn.installs[k].args.term;
    var m' := TakeOver(c, s, k);
    MatchingOf(c, s);
    PayloadFacts(c, s, k);
    CommitsComplete(d);
    ShadowWf(c, s, e);
    AsidePlain(c, s, e);
    TakeOverMatching(d, p, payload, t, m');
    TakeOverAcks(d, p, payload, t, m');
    TakeOverApplying(d, p, payload, t, m');
    ExtendsSelf(d.past.termLogs);
  }

  // ---------- candidates ----------

  /** The log is what it was, or the term has a leader, or the log is all committed. */
  ghost predicate Renewed(m: Node, m': Node, d': Cluster)
  {
    || m'.log == m.log || m'.disk.term in d'.el.leaders
    || (|m.log| <= |m'.log| && Backed(m'.log, |m'.log|, m'.disk.term, d'.re.commits, d'.past.termLogs))
  }

  ghost predicate AllRenewed(d: Cluster, d': Cluster)
  {
    |d'.nodes| == |d.nodes| && forall i | 0 <= i < |d.nodes| :: Renewed(d.nodes[i], d'.nodes[i], d')
  }

  /** New candidates stand with the log they have. */
  predicate Standing(d: Cluster, d': Cluster)
  {
    forall b | b in d'.past.candLogs && b.candidate < |d'.nodes| ::
      || (b in d.past.candLogs && d.past.candLogs[b] == d'.past.candLogs[b])
      || d'.nodes[b.candidate].log == d'.past.candLogs[b]
  }

  lemma WaitingMoves(d: Cluster, d': Cluster)
    requires Waiting(d) && WfVotes(d.nodes, d.el) && Matching(d) && AllKeep(d.nodes, d'.nodes) && Onward(d, d')
    requires LeadersGrow(d.el, d'.el) && AllRenewed(d, d') && Standing(d, d')
    ensures Waiting(d')
  {
    hide Backed, Extends, ElectLogsGrow, TermLogsOk, NodesAnchored, BeatsSliced, CandidatesAnchored, Heirs;
    hide LeadersOnTop;
    forall b | b in d'.past.candLogs && b.candidate < |d'.nodes| && b.term !in d'.el.leaders
               && d'.nodes[b.candidate].disk.term == b.term
      ensures Waits(d'.nodes[b.candidate].log, d'.past.candLogs[b], b.term, d'.re.commits, d'.past.termLogs)
    {
      var m, m' := d.nodes[b.candidate], d'.nodes[b.candidate];
      assert Renewed(m, m', d') && Keeps(m, m');
      if b in d.past.candLogs && d.past.candLogs[b] == d'.past.candLogs[b] {
        assert Waits(m.log, d.past.candLogs[b], b.term, d.re.commits, d.past.termLogs);
        if m.log != d.past.candLogs[b] && m'.log == m.log {
          BackedLater(m.log, |m.log|, b.term, d, b.term, d');
        }
      }
    }
  }

  lemma SameRenewed(d: Cluster, d': Cluster)
    requires AllSame(d.nodes, d'.nodes)
    ensures AllRenewed(d, d')
  {
    hide Backed;
  }

  lemma OneRenewed(d: Cluster, d': Cluster, i: nat)
    requires i < |d.nodes| == |d'.nodes| && d'.nodes == d.nodes[i := d'.nodes[i]]
      && Renewed(d.nodes[i], d'.nodes[i], d')
    ensures AllRenewed(d, d')
  {
    hide Backed;
  }

  lemma SharedRenewed(d: Cluster, e: Event)
    requires Wf(d) && Elected(d) && Traced(d) && !e.TakeSnapshot? && !e.DeliverInstall?
    ensures AllRenewed(d, Step(d, e))
  {
    hide Wf, Elected, Traced, Renewed, AllSame, AllKeep, AllTrim, NoCoups;
    var d' := Step(d, e);
    StepMoves(d, e);
    match e
    case ClientStart(i, command) => if Alive(d, i) && d.nodes[i].status == Leader {
      StartRenewed(d, i, command);
      OneRenewed(d, d', i);
    } else {
      NodesWf(d);
      NoneMoves(d.nodes);
      SameRenewed(d, d');
    }
    case DeliverAppend(k) => if CanDeliverAppend(d, k) {
      AppendRenewed(d, k);
      DeliverAppendMoves(d, k);
      OneRenewed(d, d', k.peer);
    } else {
      NodesWf(d);
      NoneMoves(d.nodes);
      SameRenewed(d, d');
    }
    case _ => SameRenewed(d, d');
  }

  lemma StartRenewed(d: Cluster, i: nat, command: Op)
    requires Wf(d) && Elected(d) && Alive(d, i) && d.nodes[i].status == Leader
    ensures Renewed(d.nodes[i], Step(d, ClientStart(i, command)).nodes[i], Step(d, ClientStart(i, command)))
    ensures Step(d, ClientStart(i, command)).nodes == d.nodes[i := Start(d.nodes[i], command)]
  {
    hide Wf, Elected, Backed;
    NodeAt(d, i);
    LeaderOf(d, i);
  }

  lemma AppendRenewed(d: Cluster, k: AppendKey)
    requires Wf(d) && Traced(d) && CanDeliverAppend(d, k)
    ensures Renewed(d.nodes[k.peer], Step(d, DeliverAppend(k)).nodes[k.peer], Step(d, DeliverAppend(k)))
  {
    hide Wf, Traced, Backed, AppendEntries;
    var b := d.re.beats[k.round];
    DeliverLegal(d, k);
    AppendLog(d.nodes[k.peer], b.sent[k.peer]);
    TermKnown(d, b);
  }

  lemma SharedStanding(d: Cluster, e: Event)
    requires Wf(d)
    ensures Standing(d, Step(d, e))
  {
    hide WfNodes, WfVotes, WfBeats, WfInstalls, RequestVote, VoteReplied, AppendEntries, AppendReplied;
    hide InstallSnapshot, SnapshotReplied, ApplyLogs, Snapshot, Restart, FirstBeatFault, Sent;
  }

  lemma StepKeepsWaiting(c: Cluster, s: Shadow, e: Event)
    requires Wf(c) && Wf(s.full) && Follows(c, s) && Elected(c) && Sane(s) && Settled(c, s) && Clean(c, e)
    requires Onward(s.full, ShadowStep(c, s, e).full)
    ensures Waiting(ShadowStep(c, s, e).full)
  {
    hide Wf, Follows, Elected, Traced, Replicating, Waiting, SnapsBacked, PayloadsBacked, Onward, AllKeep, LeadersGrow;
    hide Matching, Remembering, Applying, AllRenewed, Standing, ShadowStep, Step, Shared, TakesOver, AllSame, AllCalm;
    var d, d' := s.full, ShadowStep(c, s, e).full;
    ShadowMoves(c, s, e);
    SoundNodes(d);
    if Shared(c, e) {
      SharedStep(c, s, e);
      CleanMirror(c, s, e);
      StepKeepsElected(d, e);
      SharedEvent(c, e);
      SharedRenewed(d, e);
      SharedStanding(d, e);
    } else {
      AsideShape(c, s, e);
      LeadersSame(d.el, d'.el);
      StandingSame(d, d');
      if TakesOver(c, e) {
        TakeOverRenewed(c, s, e);
      } else {
        AsideCalm(c, s, e);
        SameRenewed(d, d');
      }
    }
    WaitingMoves(d, d');
  }

  lemma SharedEvent(c: Cluster, e: Event)
    requires Shared(c, e)
    ensures !e.TakeSnapshot? && !e.DeliverInstall?
  {
  }

  lemma LeadersSame(el: Elections, el': Elections)
    requires el' == el.(counts := el'.counts)
    ensures LeadersGrow(el, el')
  {
  }

  lemma StandingSame(d: Cluster, d': Cluster)
    requires d'.past.candLogs == d.past.candLogs
    ensures Standing(d, d')
  {
  }

  lemma TakeOverRenewed(c: Cluster, s: Shadow, e: Event)
    requires Wf(c) && Wf(s.full) && Follows(c, s) && Settled(c, s) && TakesOver(c, e) && Clean(c, e)
    ensures AllRenewed(s.full, ShadowStep(c, s, e).full)
  {
    hide Wf, Follows, Settled, ShadowStep, Backed;
    var m' := TakeOver(c, s, e.install);
    PayloadFacts(c, s, e.install);
    OneRenewed(s.full, ShadowStep(c, s, e).full, c.sn.installs[e.install].peer);
  }

  // ---------- snapshots stand for committed entries ----------

  ghost predicate SnapBacked(n: Node, m: Node, d: Cluster)
  {
    Backed(m.log, n.snapIndex, n.disk.term, d.re.commits, d.past.termLogs)
  }

  /** The node kept its snapshot, and the shadow what it stands for. */
  predicate Rooted(n: Node, n': Node, m: Node, m': Node)
  {
    && n'.snapIndex == n.snapIndex && n.snapIndex <= |m.log| && n.snapIndex <= |m'.log|
    && m'.log[..n.snapIndex] == m.log[..n.snapIndex]
  }

  ghost predicate AllRooted(c: Cluster, c': Cluster, d: Cluster, d': Cluster)
  {
    |c.nodes| == |c'.nodes| == |d.nodes| == |d'.nodes|
    && forall i | 0 <= i < |c.nodes| ::
         || Rooted(c.nodes[i], c'.nodes[i], d.nodes[i], d'.nodes[i])
         || SnapBacked(c'.nodes[i], d'.nodes[i], d')
  }

  lemma SnapsMove(c: Cluster, c': Cluster, d: Cluster, d': Cluster)
    requires SnapsBacked(c.nodes, d) && AllRooted(c, c', d, d') && AllKeep(c.nodes, c'.nodes) && Onward(d, d')
    ensures SnapsBacked(c'.nodes, d')
  {
    hide Backed, Onward;
    forall i | 0 <= i < |c.nodes| ensures SnapBacked(c'.nodes[i], d'.nodes[i], d') {
      var n, n', m, m' := c.nodes[i], c'.nodes[i], d.nodes[i], d'.nodes[i];
      if Rooted(n, n', m, m') {
        assert Keeps(n, n');
        BackedPart(m.log, n.snapIndex, n.disk.term, d.re.commits, d.past.termLogs, m'.log, n.snapIndex, n'.disk.term);
        BackedLater(m'.log, n.snapIndex, n'.disk.term, d, n'.disk.term, d');
      }
    }
  }

  lemma SameRooted(c: Cluster, s: Shadow, c': Cluster, d': Cluster)
    requires Wf(c) && Follows(c, s) && AllSame(c.nodes, c'.nodes) && AllSame(s.full.nodes, d'.nodes)
    ensures AllRooted(c, c', s.full, d')
  {
    hide SnapBacked, CallsMirror, PayloadsFit, WfVotes, WfBeats, WfInstalls;
    assert forall i | 0 <= i < |c.nodes| :: Mirror(c.nodes[i], s.full.nodes[i]) && Sound(c.nodes[i]);
  }

  lemma OneRooted(c: Cluster, s: Shadow, c': Cluster, d': Cluster, i: nat)
    requires Wf(c) && Follows(c, s) && i < |c.nodes| == |c'.nodes| == |d'.nodes|
    requires c'.nodes == c.nodes[i := c'.nodes[i]] && d'.nodes == s.full.nodes[i := d'.nodes[i]]
    requires Rooted(c.nodes[i], c'.nodes[i], s.full.nodes[i], d'.nodes[i]) || SnapBacked(c'.nodes[i], d'.nodes[i], d')
    ensures AllRooted(c, c', s.full, d')
  {
    hide SnapBacked, CallsMirror, PayloadsFit, WfVotes, WfBeats, WfInstalls;
    assert forall j | 0 <= j < |c.nodes| :: Mirror(c.nodes[j], s.full.nodes[j]) && Sound(c.nodes[j]);
  }

  lemma StartRooted(n: Node, m: Node, command: Op)
    requires n.Valid() && Mirror(n, m)
    ensures Rooted(n, Start(n, command), m, Start(m, command))
  {
  }

  lemma AcceptRooted(n: Node, m: Node, args: AppendArgs)
    requires n.Valid() && Mirror(n, m) && Accepts(n, args) && Contiguous(args.entries, args.prevIndex) && n.halted.None?
    requires m.Valid() && AppendEntries(m, args).0.halted.None?
    ensures Rooted(n, AppendEntries(n, args).0, m, AppendEntries(m, args).0)
  {
    hide Splice, Conflicts, Contiguous, AppendEntries, Mirror;
    SameView(n, m);
    SameFields(n, m);
    AcceptMirror(n, m, args);
    AppendLog(m, args);
    SpliceMirror(n, m, args.prevIndex, args.entries);
    AppendSnap(n, args);
  }

  lemma AppendSnap(n: Node, args: AppendArgs)
    ensures AppendEntries(n, args).0.snapIndex == n.snapIndex
    ensures !Accepts(n, args) ==> SameLog(n, AppendEntries(n, args).0)
  {
  }

  lemma InstallSnap(n: Node, args: InstallArgs)
    ensures !Takes(n, args) ==> SameLog(n, InstallSnapshot(n, args).0)
    ensures Takes(n, args) ==>
      InstallSnapshot(n, args).0.snapIndex == args.snapIndex && InstallSnapshot(n, args).0.disk.term == args.term
  {
  }

  lemma SharedRooted(c: Cluster, s: Shadow, e: Event)
    requires Wf(c) && Wf(s.full) && Follows(c, s) && Sane(s) && Shared(c, e)
    ensures AllRooted(c, Step(c, e), s.full, Step(s.full, e))
  {
    hide Wf, Follows, Sane, AllRooted, Rooted, Mirror, AllSame, AllKeep, AllTrim, NoCoups, Accepts, AppendEntries;
    hide Start;
    var d, c', d' := s.full, Step(c, e), Step(s.full, e);
    StepMoves(c, e);
    StepMoves(d, e);
    match e
    case ClientStart(i, command) =>
      if Alive(c, i) && c.nodes[i].status == Leader {
        NodeMirror(c, s, i);
        StartRooted(c.nodes[i], d.nodes[i], command);
        OneRooted(c, s, c', d', i);
      } else {
        StartIdle(c, s, i, command);
        NodesWf(c);
        NodesWf(d);
        NoneMoves(c.nodes);
        NoneMoves(d.nodes);
        SameRooted(c, s, c', d');
      }
    case DeliverAppend(k) =>
      NodeMirror(c, s, k.peer);
      SentMirror(c, s, k);
      AcceptedShadows(c, s, k);
      TracedOf(s);
      DeliverLegal(d, k);
      AcceptRooted(c.nodes[k.peer], d.nodes[k.peer], c.re.beats[k.round].sent[k.peer]);
      DeliverAppendMoves(c, k);
      DeliverAppendMoves(d, k);
      OneRooted(c, s, c', d', k.peer);
    case _ => SameRooted(c, s, c', d');
  }

  lemma TracedOf(s: Shadow)
    requires Sane(s)
    ensures Traced(s.full) && Elected(s.full) && Replicating(s.full)
  {
  }

  lemma StartIdle(c: Cluster, s: Shadow, i: nat, command: Op)
    requires Wf(c) && Wf(s.full) && Follows(c, s) && !(Alive(c, i) && c.nodes[i].status == Leader)
    ensures Step(c, ClientStart(i, command)) == c && Step(s.full, ClientStart(i, command)) == s.full
  {
    hide Wf, Follows, Start;
    Possible(c, s);
    if i < |c.nodes| {
      NodeMirror(c, s, i);
    }
  }

  lemma AsideRooted(c: Cluster, s: Shadow, e: Event)
    requires Wf(c) && Wf(s.full) && Follows(c, s) && Settled(c, s) && !Shared(c, e) && Clean(c, e)
    ensures AllRooted(c, Step(c, e), s.full, ShadowStep(c, s, e).full)
  {
    hide Wf, Follows, Settled, AllRooted, AllSame, AllKeep, AllTrim, NoCoups, Accepts, AppendEntries, Clean, Takes;
    hide Step;
    hide ShadowStep, AllCalm;
    var d, c', d' := s.full, Step(c, e), ShadowStep(c, s, e).full;
    if TakesOver(c, e) {
      TakeOverRooted(c, s, e.install);
    } else {
      AsideCalm(c, s, e);
      if e.TakeSnapshot? && Alive(c, e.i) {
        TakeSnapshotRooted(c, s, e.i, e.index);
      } else {
        AsideSame(c, e);
        SameRooted(c, s, c', d');
      }
    }
  }

  lemma AsideSame(c: Cluster, e: Event)
    requires Wf(c) && !Shared(c, e) && !TakesOver(c, e) && !(e.TakeSnapshot? && Alive(c, e.i))
    ensures AllSame(c.nodes, Step(c, e).nodes)
  {
    hide Wf, AllSame, AllKeep, AllTrim, NoCoups, Accepts, AppendEntries, InstallSnapshot, Takes, Keeps, SameLog;
    hide SnapshotReplied, Restart;
    StepMoves(c, e);
    NodesWf(c);
    NoneMoves(c.nodes);
    match e
    case DeliverAppend(k) => if CanDeliverAppend(c, k) {
      DeliverAppendMoves(c, k);
      AppendSnap(c.nodes[k.peer], c.re.beats[k.round].sent[k.peer]);
      OneMoves(c.nodes, k.peer, AppendEntries(c.nodes[k.peer], c.re.beats[k.round].sent[k.peer]).0);
    }
    case TakeSnapshot(i, index) =>
    case DeliverInstall(k) => if CanDeliverInstall(c, k) {
      var p, args := c.sn.installs[k].peer, c.sn.installs[k].args;
      NodeAt(c, p);
      InstallSnap(c.nodes[p], args);
      InstallSnapshotKeeps(c.nodes[p], args);
      OneMoves(c.nodes, p, InstallSnapshot(c.nodes[p], args).0);
    }
    case _ =>
  }

  lemma TakeSnapshotRooted(c: Cluster, s: Shadow, i: nat, index: int)
    requires Wf(c) && Wf(s.full) && Follows(c, s) && Settled(c, s) && Alive(c, i)
    ensures AllRooted(c, Step(c, TakeSnapshot(i, index)), s.full, ShadowStep(c, s, TakeSnapshot(i, index)).full)
  {
    hide Wf, Follows, Settled, AllRooted, Snapshot, Unfold, Mirror, Rooted, Backed;
    NodeMirror(c, s, i);
    var n, m := c.nodes[i], s.full.nodes[i];
    MatchingOf(c, s);
    NodePart(s.full, i) by { hide Matching, Remembering; }
    SnapshotRooted(n, m, index, s.full);
    OneRooted(c, s, Step(c, TakeSnapshot(i, index)), ShadowStep(c, s, TakeSnapshot(i, index)).full, i);
  }

  lemma SnapshotRooted(n: Node, m: Node, index: int, d: Cluster)
    requires n.Valid() && m.Valid() && Mirror(n, m)
    requires Backed(m.log, m.commitIndex, m.term, d.re.commits, d.past.termLogs)
    ensures var n', m' := Snapshot(n, index), Unfold(Snapshot(n, index), m.log);
      || Rooted(n, n', m, m')
      || Backed(m'.log, n'.snapIndex, n'.disk.term, d.re.commits, d.past.termLogs)
  {
    hide Backed;
    if n.snapIndex < index <= n.commitIndex {
      BackedPart(m.log, m.commitIndex, m.term, d.re.commits, d.past.termLogs, m.log, index, n.term);
    }
  }

  lemma TakeOverRooted(c: Cluster, s: Shadow, k: nat)
    requires Wf(c) && Wf(s.full) && Follows(c, s) && Settled(c, s) && TakesOver(c, DeliverInstall(k))
    requires Clean(c, DeliverInstall(k))
    ensures AllRooted(c, Step(c, DeliverInstall(k)), s.full, ShadowStep(c, s, DeliverInstall(k)).full)
  {
    hide Wf, Follows, Settled, AllRooted, InstallSnapshot, Clean, Backed, Rooted, ShadowStep;
    var p, args := c.sn.installs[k].peer, c.sn.installs[k].args;
    var m' := TakeOver(c, s, k);
    Sizes(c, s);
    PayloadFacts(c, s, k);
    PayloadFits(c, s, k);
    InstallSnap(c.nodes[p], args);
    BackedPart(s.payloads[k], args.snapIndex, args.term, s.full.re.commits, s.full.past.termLogs,
               m'.log, args.snapIndex, args.term);
    var c' := Step(c, DeliverInstall(k));
    assert c'.nodes == c.nodes[p := InstallSnapshot(c.nodes[p], args).0];
    OneRooted(c, s, c', ShadowStep(c, s, DeliverInstall(k)).full, p);
  }

  lemma StepKeepsSnapsBacked(c: Cluster, s: Shadow, e: Event)
    requires Wf(c) && Wf(s.full) && Follows(c, s) && Sane(s) && Settled(c, s) && Clean(c, e)
    requires Onward(s.full, ShadowStep(c, s, e).full)
    ensures SnapsBacked(Step(c, e).nodes, ShadowStep(c, s, e).full)
  {
    hide Wf, Follows, Sane, AllRooted, AllKeep, Onward, SnapsBacked, Step, ShadowStep, Shared, Clean;
    hide Matching, Remembering, Applying, Waiting, PayloadsBacked;
    if Shared(c, e) {
      SharedStep(c, s, e);
      SharedRooted(c, s, e);
    } else {
      AsideRooted(c, s, e);
    }
    StepMoves(c, e);
    SnapsMove(c, Step(c, e), s.full, ShadowStep(c, s, e).full);
  }

  // ---------- and so do the snapshots on their way ----------

  lemma StepKeepsPayloadsBacked(c: Cluster, s: Shadow, e: Event)
    requires Wf(c) && Wf(s.full) && Follows(c, s) && Sane(s) && Settled(c, s)
    requires Onward(s.full, ShadowStep(c, s, e).full)
    ensures PayloadsBacked(Step(c, e).sn.installs, ShadowStep(c, s, e).payloads, ShadowStep(c, s, e).full)
  {
    hide Wf, Follows, Sane, SnapsBacked, Step, ShadowStep, Onward;
    hide Matching, Remembering, Applying, Waiting, PayloadsBacked, Settled, Backed;
    var s' := ShadowStep(c, s, e);
    InstallsShape(c, s, e);
    SettledPayloads(c, s);
    if e.SendSnapshot? && Alive(c, e.i) && (e.i, e.peer) in c.sn.threads {
      PayloadSent(c, s, e.i);
      PayloadsMove(c.sn.installs, s.payloads, s.full, s.full);
      PayloadsPush(c.sn.installs, s.payloads, s.full,
                   InstallCall(e.i, e.peer, InstallArgsOf(c.nodes[e.i])),
                   s.full.nodes[e.i].log[..c.nodes[e.i].snapIndex]);
    } else {
      PayloadsMove(c.sn.installs, s.payloads, s.full, s'.full);
    }
  }

  lemma SettledPayloads(c: Cluster, s: Shadow)
    requires Settled(c, s)
    ensures PayloadsBacked(c.sn.installs, s.payloads, s.full) && SnapsBacked(c.nodes, s.full)
  {
  }

  lemma InstallsShape(c: Cluster, s: Shadow, e: Event)
    requires Wf(c) && Wf(s.full) && Follows(c, s)
    ensures var s' := ShadowStep(c, s, e);
      if e.SendSnapshot? && Alive(c, e.i) && (e.i, e.peer) in c.sn.threads then
        && s' == s.(payloads := s.payloads + [s.full.nodes[e.i].log[..c.nodes[e.i].snapIndex]])
        && Step(c, e).sn.installs == c.sn.installs + [InstallCall(e.i, e.peer, InstallArgsOf(c.nodes[e.i]))]
      else s'.payloads == s.payloads && Step(c, e).sn.installs == c.sn.installs
  {
    hide Wf, Follows, Mirror, AppendEntries, Accepts;
    if e.SendSnapshot? {
    } else {
      InstallsStay(c, e);
      if Shared(c, e) {
        SharedStep(c, s, e);
      } else {
        AsideShape(c, s, e);
      }
    }
  }

  lemma InstallsStay(c: Cluster, e: Event)
    requires Wf(c) && !e.SendSnapshot?
    ensures Step(c, e).sn.installs == c.sn.installs
  {
    hide WfNodes, WfVotes, WfBeats, WfInstalls, RequestVote, VoteReplied, AppendEntries, AppendReplied;
    hide InstallSnapshot, SnapshotReplied, ApplyLogs, Snapshot, Restart, FirstBeatFault, Sent;
  }

  lemma PayloadSent(c: Cluster, s: Shadow, i: nat)
    requires Wf(c) && Wf(s.full) && Follows(c, s) && SnapsBacked(c.nodes, s.full) && i < |c.nodes|
    ensures var n, m, d := c.nodes[i], s.full.nodes[i], s.full;
      && n.snapIndex <= |m.log|
      && Backed(m.log[..n.snapIndex], n.snapIndex, n.term, d.re.commits, d.past.termLogs)
  {
    hide Backed;
    var n, m, d := c.nodes[i], s.full.nodes[i], s.full;
    NodeMirror(c, s, i);
    BackedPart(m.log, n.snapIndex, n.disk.term, d.re.commits, d.past.termLogs, m.log[..n.snapIndex], n.snapIndex,
        n.term);
  }

  lemma PayloadsMove(installs: seq<InstallCall>, payloads: seq<Log>, d: Cluster, d': Cluster)
    requires PayloadsBacked(installs, payloads, d) && Onward(d, d')
    ensures PayloadsBacked(installs, payloads, d')
  {
    hide Backed, Onward;
    forall k | 0 <= k < |installs|
      ensures Backed(payloads[k], |payloads[k]|, installs[k].args.term, d'.re.commits, d'.past.termLogs)
    {
      BackedLater(payloads[k], |payloads[k]|, installs[k].args.term, d, installs[k].args.term, d');
    }
  }

  lemma PayloadsPush(installs: seq<InstallCall>, payloads: seq<Log>, d: Cluster, call: InstallCall, payload: Log)
    requires PayloadsBacked(installs, payloads, d)
    requires Backed(payload, |payload|, call.args.term, d.re.commits, d.past.termLogs)
    ensures PayloadsBacked(installs + [call], payloads + [payload], d)
  {
    hide Backed;
  }

  // ---------- all clean runs ----------

  lemma StepKeepsSettled(c: Cluster, s: Shadow, e: Event)
    requires Wf(c) && Wf(s.full) && Follows(c, s) && Elected(c) && Sane(s) && Settled(c, s) && Clean(c, e)
    ensures Settled(Step(c, e), ShadowStep(c, s, e)) && Onward(s.full, ShadowStep(c, s, e).full)
  {
    StepKeepsCore(c, s, e);
    hide *;
    StepKeepsWaiting(c, s, e);
    StepKeepsSnapsBacked(c, s, e);
    StepKeepsPayloadsBacked(c, s, e);
    SettledJoin(Step(c, e), ShadowStep(c, s, e));
  }

  lemma StepKeepsCore(c: Cluster, s: Shadow, e: Event)
    requires Wf(c) && Wf(s.full) && Follows(c, s) && Sane(s) && Settled(c, s) && Clean(c, e)
    ensures var d' := ShadowStep(c, s, e).full; Matching(d') && Remembering(d') && Applying(d') && Onward(s.full, d')
  {
    hide *;
    if Shared(c, e) {
      SharedKeeps(c, s, e);
    } else if TakesOver(c, e) {
      TakeOverKeeps(c, s, e);
    } else {
      AsideKeeps(c, s, e);
    }
  }

  lemma SettledJoin(c: Cluster, s: Shadow)
    requires Matching(s.full) && Remembering(s.full) && Applying(s.full) && Waiting(s.full)
    requires SnapsBacked(c.nodes, s.full) && PayloadsBacked(c.sn.installs, s.payloads, s.full)
    ensures Settled(c, s)
  {
  }

  lemma {:induction false} RunSettled(n: nat, events: seq<Event>)
    requires CleanRun(n, events)
    ensures Settled(Exec(Init(n), events), ShadowOf(n, events))
  {
    if events == [] {
    } else {
      hide Wf, Elected, Traced, Replicating, Step, Init, Sane, Settled, ShadowStep, Follows, CleanRun, Clean, Onward;
      var before := events[..|events| - 1];
      CleanLast(n, events);
      RunSettled(n, before);
      RunElected(n, before);
      RunSane(n, before);
      StepKeepsSettled(Exec(Init(n), before), ShadowOf(n, before), events[|events| - 1]);
    }
  }

  lemma AtSettled(n: nat, events: seq<Event>, k: nat)
    requires k <= |events| && CleanRun(n, events)
    ensures Settled(At(n, events, k), ShadowAt(n, events, k))
  {
    hide CleanRun, Settled, ShadowOf, Follows;
    CleanPrefix(n, events, k);
    RunSettled(n, events[..k]);
  }

  lemma {:induction false} RunOnward(n: nat, events: seq<Event>, j: nat, k: nat)
    requires j <= k <= |events| && CleanRun(n, events)
    ensures Onward(ShadowAt(n, events, j).full, ShadowAt(n, events, k).full)
    decreases k
  {
    hide Wf, Elected, Sane, Settled, At, Step, Clean, Extends, CleanRun, ShadowAt, ShadowStep, Follows;
    if j == k {
      ExtendsSelf(ShadowAt(n, events, k).full.past.termLogs);
    } else {
      RunOnward(n, events, j, k - 1);
      CleanAt(n, events, k - 1);
      AtElected(n, events, k - 1);
      AtSane(n, events, k - 1);
      AtSettled(n, events, k - 1);
      ShadowNext(n, events, k - 1);
      var c, s := At(n, events, k - 1), ShadowAt(n, events, k - 1);
      StepKeepsSettled(c, s, events[k - 1]);
      ExtendsTrans(ShadowAt(n, events, j).full.past.termLogs, s.full.past.termLogs,
                   ShadowAt(n, events, k).full.past.termLogs);
    }
  }

  lemma CleanAt(n: nat, events: seq<Event>, k: nat)
    requires CleanRun(n, events) && k < |events|
    ensures Clean(At(n, events, k), events[k])
  {
  }
}
