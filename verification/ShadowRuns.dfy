/** What holds of the shadow in every run: whole logs have one leader per term behind them, hold only
    commands that were proposed, and back every commit with a majority that held the entry itself. */
module ShadowRuns {
  import opened RaftTypes
  import opened RaftNode
  import opened RaftCluster
  import opened Quorums
  import opened ElectionSafety
  import opened EntryIdentity
  import opened Commitment
  import opened LogAlgebra
  import opened FullLogs
  import opened Shadows

  ghost predicate PayloadsKnown(payloads: seq<Log>, created: map<(nat, nat), Op>)
  {
    forall k | 0 <= k < |payloads| :: AllKnown(payloads[k], created)
  }

  /** The shadow of a cluster satisfies what the cluster satisfies. */
  ghost predicate Sane(s: Shadow)
  {
    Elected(s.full) && Traced(s.full) && Replicating(s.full) && PayloadsKnown(s.payloads, s.full.past.created)
  }

  // ---------- elections ----------

  lemma ElectedMirror(c: Cluster, s: Shadow)
    requires Wf(c) && Follows(c, s) && Elected(c)
    ensures Elected(s.full)
  {
    hide Wf, CallsMirror, PayloadsFit, CallsBacked, Tallies, Thrones, Mirror;
    forall i | 0 <= i < |c.nodes| ensures SameThrone(c.nodes[i], s.full.nodes[i]) {
      SameFields(c.nodes[i], s.full.nodes[i]);
    }
  }

  predicate SameThrone(n: Node, m: Node)
  {
    m.status == n.status && m.term == n.term && m.disk.term == n.disk.term && m.disk.votedFor == n.disk.votedFor
  }

  // ---------- commands ----------

  lemma AsideTraced(c: Cluster, s: Shadow, e: Event)
    requires Wf(c) && Elected(c) && Wf(s.full) && Follows(c, s) && Sane(s) && !Shared(c, e)
    ensures Traced(ShadowStep(c, s, e).full)
  {
    hide Wf, Elected, Replicating, Follows, Step, ShadowStep, Origins, LogsKnown, BeatsKnown, LeadersGrow;
    var d, d' := s.full, ShadowStep(c, s, e).full;
    ShadowMoves(c, s, e);
    StepShadows(c, s, e);
    AsideShape(c, s, e);
    StepKeepsElected(c, e);
    Sizes(c, s);
    Sizes(Step(c, e), ShadowStep(c, s, e));
    OriginsCarry(d.nodes, d'.nodes, d.el, d'.el, d.past.created);
    BeatsCarry(d.re.beats, d.el, d'.el, d.past.created);
    AsideLogs(c, s, e);
  }

  lemma AsideLogs(c: Cluster, s: Shadow, e: Event)
    requires Wf(c) && Wf(s.full) && Follows(c, s) && Sane(s) && !Shared(c, e)
    ensures LogsKnown(ShadowStep(c, s, e).full.nodes, s.full.past.created)
  {
    hide Wf, Elected, Replicating, Origins, BeatsKnown, AllKnown, Accepts, AppendEntries, InstallSnapshot, Installed;
    hide CallsMirror, Step;
    var created := s.full.past.created;
    Sizes(c, s);
    match e
    case DeliverAppend(k) =>
    case TakeSnapshot(i, index) =>
    case SendSnapshot(i, p) =>
    case DeliverInstall(k) => if CanDeliverInstall(c, k) {
      var p, args := c.sn.installs[k].peer, c.sn.installs[k].args;
      NodeMirror(c, s, p);
      InstalledKnown(c.nodes[p], s.full.nodes[p].log, args, s.payloads[k], created);
    }
    case InstallAnswered(k) => if CanHandleInstall(c, k) { SenderHere(c, k); }
    case Crash(i) => if i < |c.nodes| { CrashNodes(s.full, i); }
  }

  lemma SenderHere(c: Cluster, k: nat)
    requires Wf(c) && CanHandleInstall(c, k)
    ensures c.sn.installs[k].sender < |c.nodes|
  {
  }

  lemma CrashNodes(c: Cluster, i: nat)
    requires Wf(c) && i < |c.nodes|
    ensures Step(c, Crash(i)).nodes == c.nodes[i := Restart(c.nodes[i])]
  {
    hide Wf, Restart;
  }

  lemma InstalledKnown(n: Node, full: Log, args: InstallArgs, payload: Log, created: map<(nat, nat), Op>)
    requires AllKnown(full, created) && AllKnown(payload, created)
    ensures AllKnown(Installed(n, full, args, payload), created)
  {
    hide Known;
  }

  lemma PayloadsStay(c: Cluster, s: Shadow, e: Event)
    requires Wf(c) && Wf(s.full) && Follows(c, s) && Sane(s)
    ensures PayloadsKnown(ShadowStep(c, s, e).payloads, s.full.past.created)
  {
    hide Wf, Elected, Replicating, Origins, BeatsKnown, Known, Accepts, Step;
    if e.SendSnapshot? && Alive(c, e.i) {
      NodeMirror(c, s, e.i);
      assert AllKnown(s.full.nodes[e.i].log, s.full.past.created);
    } else if Shared(c, e) {
      SharedStep(c, s, e);
    } else {
      AsideShape(c, s, e);
    }
  }

  lemma PayloadsGrow(payloads: seq<Log>, created: map<(nat, nat), Op>, created': map<(nat, nat), Op>)
    requires PayloadsKnown(payloads, created) && CreatedGrow(created, created')
    ensures PayloadsKnown(payloads, created')
  {
    forall k | 0 <= k < |payloads| ensures AllKnown(payloads[k], created') {
      assert AllKnown(payloads[k], created);
    }
  }

  // ---------- replication ----------

  lemma AsideReplicating(c: Cluster, s: Shadow, e: Event)
    requires Wf(c) && Wf(s.full) && Follows(c, s) && Sane(s) && !Shared(c, e)
    requires Replicating(Step(c, e))
    ensures Replicating(ShadowStep(c, s, e).full)
  {
    hide Wf, Elected, Traced, Step, ShadowStep, Follows, Requests, HoldersKnown, Answers, Holdings, Counting, Committed;
    StepShadows(c, s, e);
    AsideShape(c, s, e);
    ReplicatingMirror(Step(c, e), ShadowStep(c, s, e));
  }

  lemma ReplicatingMirror(c: Cluster, s: Shadow)
    requires Wf(c) && Follows(c, s) && Replicating(c)
    requires Requests(s.full.re.beats) && HoldersKnown(s.full.re.holders, s.full.past.created)
    ensures Replicating(s.full)
  {
    hide Wf, Requests, HoldersKnown, Answers, Holdings, Counting, Committed, Mirror, Steady, BeatsMirror, HoldersMirror;
    forall i | 0 <= i < |c.nodes| ensures Steady(s.full.nodes[i]) {
      assert Steady(c.nodes[i]);
      SteadyMirror(c.nodes[i], s.full.nodes[i]);
    }
    CallsMirrored(|c.nodes|, c.re, s.full.re, c.past.created);
  }

  lemma CallsMirrored(n: nat, re: Replication, re': Replication, created: map<(nat, nat), Op>)
    requires CallsMirror(re, re') && HoldersKnown(re.holders, created)
    requires Answers(re) && Holdings(n, re) && Counting(re) && Committed(n, re)
    ensures Answers(re') && Holdings(n, re') && Counting(re') && Committed(n, re')
  {
    hide AnswerOk, HoldsAt, MirrorBeat, Mirror, IsQuorum, AllKnown;
    forall r | 0 <= r < |re.beats| ensures SameHead(re.beats[r], re'.beats[r]) {
      HeadMirror(re.beats[r], re'.beats[r]);
    }
    forall k | k in re.replies ensures AnswerOk(re'.beats[k.round], re'.replies[k]) {
      HeadMirror(re.beats[k.round], re'.beats[k.round]);
    }
    forall k | k in re.holders ensures HoldsAt(re'.holders[k], re'.beats[k.round].last, re'.beats[k.round].lastTerm) {
      SameView(re.holders[k], re'.holders[k]);
      HoldsMirror(re.holders[k], re'.holders[k], re.beats[k.round].last, re.beats[k.round].lastTerm);
    }
    forall m | m in re.commits ensures CommitOk(n, re'.beats, re'.holders, m) {
      assert CommitOk(n, re.beats, re.holders, m);
    }
  }

  lemma HoldsMirror(n: Node, m: Node, index: nat, term: nat)
    requires n.Valid() && Mirror(n, m) && HoldsAt(n, index, term)
    ensures HoldsAt(m, index, term)
  {
    SameView(n, m);
  }

  predicate SameHead(b: Beat, b': Beat)
  {
    b'.leader == b.leader && b'.term == b.term && b'.last == b.last && b'.lastTerm == b.lastTerm
  }

  lemma HeadMirror(b: Beat, b': Beat)
    requires MirrorBeat(b, b')
    ensures SameHead(b, b')
    ensures forall reply :: AnswerOk(b', reply) <==> AnswerOk(b, reply)
  {
  }

  lemma SteadyMirror(n: Node, m: Node)
    requires Mirror(n, m) && Steady(n)
    ensures Steady(m)
  {
  }

  // ---------- all runs ----------

  lemma StepKeepsSane(c: Cluster, s: Shadow, e: Event)
    requires Wf(c) && Wf(s.full) && Follows(c, s) && Elected(c) && Traced(c) && Replicating(c) && Sane(s)
    ensures Sane(ShadowStep(c, s, e))
  {
    hide Wf, Elected, Traced, Replicating, PayloadsKnown, CreatedGrow, Follows, Step, ShadowStep;
    var s' := ShadowStep(c, s, e);
    StepShadows(c, s, e);
    StepKeepsElected(c, e);
    ElectedMirror(Step(c, e), s');
    PayloadsStay(c, s, e);
    if Shared(c, e) {
      SharedStep(c, s, e);
      StepKeepsTraced(s.full, e);
      StepKeepsReplicating(s.full, e);
      PayloadsGrow(s'.payloads, s.full.past.created, s'.full.past.created);
    } else {
      StepKeepsReplicating(c, e);
      AsideTraced(c, s, e);
      AsideReplicating(c, s, e);
      AsideShape(c, s, e);
    }
  }

  lemma {:induction false} RunSane(n: nat, events: seq<Event>)
    ensures Sane(ShadowOf(n, events))
  {
    if events == [] {
    } else {
      hide Wf, Elected, Traced, Replicating, Step, Init, Sane, ShadowStep, Follows;
      var before := events[..|events| - 1];
      RunSane(n, before);
      RunElected(n, before);
      RunTraced(n, before);
      RunReplicating(n, before);
      StepKeepsSane(Exec(Init(n), before), ShadowOf(n, before), events[|events| - 1]);
    }
  }

  lemma AtSane(n: nat, events: seq<Event>, k: nat)
    requires k <= |events|
    ensures Sane(ShadowAt(n, events, k))
  {
    hide Sane, ShadowOf, Follows;
    RunSane(n, events[..k]);
  }

  /** When a reply moves a leader's commit index to N, a majority with the leader in it held the leader's
      entry N, made in the current term, when it sent or accepted the heartbeat: in the log, or in what
      its snapshot stands for. */
  lemma CommitHasMajority(n: nat, events: seq<Event>, j: nat, key: AppendKey)
    returns (quorum: set<nat>, entry: LogEntry)
    requires j < |events| && events[j] == AppendAnswered(key) && CanHandleAppend(At(n, events, j), key)
    requires var c, c' := At(n, events, j), At(n, events, j + 1); var i := c.re.beats[key.round].leader;
      c'.nodes[i].commitIndex > c.nodes[i].commitIndex
    ensures var c, c' := At(n, events, j), At(n, events, j + 1); var i := c.re.beats[key.round].leader;
      && IsQuorum(quorum, n) && i in quorum && entry.logTerm == c.nodes[i].term
      && forall v | v in quorum ::
           && AppendKey(key.round, v) in c'.re.holders
           && HoldsWhole(c'.re.holders[AppendKey(key.round, v)],
                         ShadowAt(n, events, j + 1).full.re.holders[AppendKey(key.round, v)],
                         c'.nodes[i].commitIndex, entry)
  {
    hide At, ShadowAt, Wf, Requests, Answers, Counting, Elected, Traced, Mirror, PayloadsKnown;
    hide NodesMirror, BeatsMirror;
    var c, c' := At(n, events, j), At(n, events, j + 1);
    var d' := ShadowAt(n, events, j + 1).full;
    AtNext(n, events, j);
    AtReplicating(n, events, j);
    AtReplicating(n, events, j + 1);
    AtSane(n, events, j + 1);
    ReplyFacts(c, key);
    var m := MovedCommit(c, key);
    quorum := m.quorum;
    entry := LogEntry(KnownCommand(d'.past.created, m.index, m.term), m.term, m.index);
    assert CommitOk(n, c'.re.beats, c'.re.holders, m) && CommitOk(n, d'.re.beats, d'.re.holders, m);
    forall v | v in quorum ensures
        var k := AppendKey(key.round, v); HoldsWhole(c'.re.holders[k], d'.re.holders[k], m.index, entry)
    {
      var k := AppendKey(key.round, v);
      HolderWhole(c'.re.holders[k], d'.re.holders[k], m.index, m.term, d'.past.created);
    }
  }

  /** The whole log has this entry at the index; so has the log itself, above its snapshot. */
  predicate HoldsWhole(n: Node, m: Node, index: nat, entry: LogEntry)
  {
    && Mirror(n, m) && HoldsAt(n, index, entry.logTerm)
    && 1 <= index <= |m.log| && m.log[index - 1] == entry
    && (index > n.snapIndex ==> n.log[index - n.snapIndex - 1] == entry)
  }

  lemma HolderWhole(n: Node, m: Node, index: nat, term: nat, created: map<(nat, nat), Op>)
    requires n.Valid() && m.Valid() && Mirror(n, m) && AllKnown(m.log, created) && HoldsAt(n, index, term) && index >= 1
    ensures HoldsWhole(n, m, index, LogEntry(KnownCommand(created, index, term), term, index))
  {
    SameView(n, m);
    assert m.log[index - 1].logTerm == term by {
      assert m.TermAt(index) == n.TermAt(index);
    }
    assert Known(m.log[index - 1], created);
  }
}
