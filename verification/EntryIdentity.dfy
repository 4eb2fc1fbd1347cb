/** In every run two entries with the same index and term carry the same command, wherever and
    whenever they are found: in a log, on a disk or in a message. So the conflict assertion of
    appendEntriesimpl (raft.cpp:514) never fails. */
module EntryIdentity {
  import opened RaftTypes
  import opened RaftNode
  import opened NodeInvariants
  import opened RaftCluster
  import opened ElectionSafety

  // ---------- the invariant ----------

  ghost predicate Traced(c: Cluster)
  {
    && Origins(c.nodes, c.el.leaders, c.past.created)
    && LogsKnown(c.nodes, c.past.created)
    && BeatsKnown(c.re.beats, c.el.leaders, c.past.created)
  }

  /** An entry was made by the leader of its term, at an index its log still reaches. */
  ghost predicate Origins(nodes: seq<Node>, leaders: map<nat, nat>, created: map<(nat, nat), Op>)
  {
    forall x | x in created ::
      x.1 in leaders && leaders[x.1] < |nodes| && x.0 <= nodes[leaders[x.1]].Last()
  }

  predicate Known(e: LogEntry, created: map<(nat, nat), Op>)
  {
    (e.logIndex, e.logTerm) in created && created[(e.logIndex, e.logTerm)] == e.command
  }

  ghost predicate AllKnown(log: seq<LogEntry>, created: map<(nat, nat), Op>)
  {
    forall k | 0 <= k < |log| :: Known(log[k], created)
  }

  ghost predicate LogsKnown(nodes: seq<Node>, created: map<(nat, nat), Op>)
  {
    forall i | 0 <= i < |nodes| :: AllKnown(nodes[i].log, created)
  }

  ghost predicate BeatsKnown(beats: seq<Beat>, leaders: map<nat, nat>, created: map<(nat, nat), Op>)
  {
    forall r | 0 <= r < |beats| ::
      && beats[r].term in leaders && leaders[beats[r].term] == beats[r].leader
      && forall p | p in beats[r].sent :: AllKnown(beats[r].sent[p].entries, created)
  }

  /** Records are only added, never changed. */
  ghost predicate CreatedGrow(created: map<(nat, nat), Op>, created': map<(nat, nat), Op>)
  {
    forall x | x in created :: x in created' && created'[x] == created[x]
  }

  // ---------- every step keeps it ----------

  lemma OriginsCarry(nodes: seq<Node>, nodes': seq<Node>, el: Elections, el': Elections, created: map<(nat, nat), Op>)
    requires Origins(nodes, el.leaders, created) && AllKeep(nodes, nodes') && LeadersGrow(el, el')
    ensures Origins(nodes', el'.leaders, created)
  {
  }

  lemma TrimKnown(nodes: seq<Node>, nodes': seq<Node>, created: map<(nat, nat), Op>)
    requires LogsKnown(nodes, created) && AllTrim(nodes, nodes')
    ensures LogsKnown(nodes', created)
  {
    forall i | 0 <= i < |nodes'| ensures AllKnown(nodes'[i].log, created) {
      assert Trims(nodes[i], nodes'[i]) && AllKnown(nodes[i].log, created);
    }
  }

  lemma BeatsCarry(beats: seq<Beat>, el: Elections, el': Elections, created: map<(nat, nat), Op>)
    requires BeatsKnown(beats, el.leaders, created) && LeadersGrow(el, el')
    ensures BeatsKnown(beats, el'.leaders, created)
  {
  }

  lemma KnownGrow(nodes: seq<Node>, beats: seq<Beat>, leaders: map<nat, nat>,
                  created: map<(nat, nat), Op>, created': map<(nat, nat), Op>)
    requires LogsKnown(nodes, created) && BeatsKnown(beats, leaders, created) && CreatedGrow(created, created')
    ensures LogsKnown(nodes, created') && BeatsKnown(beats, leaders, created')
  {
    forall i | 0 <= i < |nodes| ensures AllKnown(nodes[i].log, created') {
      assert AllKnown(nodes[i].log, created);
    }
    forall r, p | 0 <= r < |beats| && p in beats[r].sent ensures AllKnown(beats[r].sent[p].entries, created') {
      assert AllKnown(beats[r].sent[p].entries, created);
    }
  }

  /** The leader of a term makes each of its entries past the end of its log, which never shrinks. */
  lemma ClientStartKeeps(c: Cluster, i: nat, command: Op)
    requires Wf(c) && Elected(c) && Traced(c) && Alive(c, i)
    ensures var c' := ClientStartStep(c, i, command); Traced(c') && CreatedGrow(c.past.created, c'.past.created)
  {
    hide Elected, WfVotes, WfBeats, WfInstalls, Node.Durable;
    var n := c.nodes[i];
    if n.status == Leader {
      var c', n' := ClientStartStep(c, i, command), Start(n, command);
      var created, created' := c.past.created, c'.past.created;
      LeaderOf(c, i);
      assert (n'.Last(), n.term) !in created;
      assert CreatedGrow(created, created');
      KnownGrow(c.nodes, c.re.beats, c.el.leaders, created, created');
      assert c'.nodes == c.nodes[i := n'] && n'.log == n.log + [LogEntry(command, n.term, n.Last() + 1)];
      assert AllKnown(n'.log, created') by {
        assert AllKnown(n.log, created');
      }
      StartKeeps(n, command);
    }
  }

  lemma LeaderOf(c: Cluster, i: nat)
    requires Wf(c) && Elected(c) && i < |c.nodes| && c.nodes[i].status == Leader
    ensures c.nodes[i].term in c.el.leaders && c.el.leaders[c.nodes[i].term] == i
  {
  }

  lemma HeartBeatKeeps(c: Cluster, i: nat)
    requires Wf(c) && Elected(c) && Traced(c) && Alive(c, i)
    ensures Traced(HeartBeatStep(c, i)) && HeartBeatStep(c, i).past == c.past
  {
    hide Elected, Wf, Origins, LogsKnown, BeatsKnown, BeatOf, FirstBeatFault;
    var n, d := c.nodes[i], Sending(c, i);
    NodeAt(c, i);
    if n.status == Leader {
      LeaderOf(c, i);
      BeatKnown(n, c.nodes, i, c.past.created);
      BeatAdded(c.re.beats, BeatOf(n), c.el.leaders, c.past.created);
      if FirstBeatFault(n, 0).Some? {
        HaltTraced(d, i, FirstBeatFault(n, 0).value);
      }
    }
  }

  lemma HaltTraced(c: Cluster, i: nat, a: Assertion)
    requires WfNodes(c.nodes) && Traced(c) && i < |c.nodes|
    ensures Traced(Put(c, i, c.nodes[i].Halt(a)))
  {
    hide WfNodes, Origins, LogsKnown, BeatsKnown;
    var nodes := c.nodes[i := c.nodes[i].Halt(a)];
    SoundAt(c.nodes, i);
    HaltKeeps(c.nodes[i], a);
    OneMoves(c.nodes, i, c.nodes[i].Halt(a));
    OriginsCarry(c.nodes, nodes, c.el, c.el, c.past.created);
    TrimKnown(c.nodes, nodes, c.past.created);
  }

  lemma SoundAt(nodes: seq<Node>, i: nat)
    requires WfNodes(nodes) && i < |nodes|
    ensures Sound(nodes[i])
  {
  }

  lemma NodeAt(c: Cluster, i: nat)
    requires Wf(c) && i < |c.nodes|
    ensures Sound(c.nodes[i]) && c.nodes[i].id == i && c.nodes[i].peers == |c.nodes| && WfNodes(c.nodes)
  {
  }

  lemma BeatKnown(n: Node, nodes: seq<Node>, i: nat, created: map<(nat, nat), Op>)
    requires i < |nodes| && nodes[i] == n && LogsKnown(nodes, created) && n.Valid()
    ensures BeatOf(n).leader == n.id && BeatOf(n).term == n.term
    ensures forall p | p in BeatOf(n).sent :: AllKnown(BeatOf(n).sent[p].entries, created)
  {
    assert AllKnown(n.log, created);
  }

  lemma BeatAdded(beats: seq<Beat>, b: Beat, leaders: map<nat, nat>, created: map<(nat, nat), Op>)
    requires BeatsKnown(beats, leaders, created) && b.term in leaders && leaders[b.term] == b.leader
    requires forall p | p in b.sent :: AllKnown(b.sent[p].entries, created)
    ensures BeatsKnown(beats + [b], leaders, created)
  {
  }

  lemma DeliverAppendKeeps(c: Cluster, k: AppendKey)
    requires Wf(c) && Traced(c) && CanDeliverAppend(c, k)
    ensures Traced(DeliverAppendStep(c, k))
    ensures DeliverAppendStep(c, k).nodes[k.peer].halted.None?
  {
    hide WfVotes, WfInstalls, Node.Durable, AppendEntries, Origins, BeatsKnown;
    var n, args, c' := c.nodes[k.peer], c.re.beats[k.round].sent[k.peer], DeliverAppendStep(c, k);
    DeliverAppendMoves(c, k);
    OriginsCarry(c.nodes, c'.nodes, c.el, c'.el, c.past.created);
    SentKnown(c, k);
    AppendKnown(n, args, c.past.created);
  }

  lemma SentKnown(c: Cluster, k: AppendKey)
    requires Wf(c) && Traced(c) && CanDeliverAppend(c, k)
    ensures AllKnown(c.re.beats[k.round].sent[k.peer].entries, c.past.created)
    ensures WfRequest(c.re.beats[k.round], c.re.beats[k.round].sent[k.peer])
  {
    assert WfBeat(c.nodes, c.re.beats[k.round]);
  }

  lemma AppendKnown(n: Node, args: AppendArgs, created: map<(nat, nat), Op>)
    requires n.Valid() && Contiguous(args.entries, args.prevIndex) && n.halted.None?
    requires AllKnown(n.log, created) && AllKnown(args.entries, created)
    ensures AllKnown(AppendEntries(n, args).0.log, created) && AppendEntries(n, args).0.halted.None?
  {
    if Accepts(n, args) {
      NoClash(n.log, n.snapIndex, args.prevIndex - n.snapIndex, args.entries, created);
    }
  }

  /** Entries that are known, laid over a log that is known, never meet another command. */
  lemma NoClash(log: seq<LogEntry>, base: nat, at: nat, entries: seq<LogEntry>, created: map<(nat, nat), Op>)
    requires Contiguous(log, base) && Contiguous(entries, base + at) && at <= |log|
    requires AllKnown(log, created) && AllKnown(entries, created)
    ensures !Clashes(log, at, entries) && AllKnown(Splice(log, at, entries), created)
  {
    forall k | 0 <= k < |entries| && at + k < |log|
      ensures log[at + k].logTerm == entries[k].logTerm ==> log[at + k].command == entries[k].command
    {
      assert Known(log[at + k], created) && Known(entries[k], created);
    }
  }

  lemma QuietShape(c: Cluster, e: Event)
    requires Wf(c) && !e.ClientStart? && !e.HeartBeat?
    ensures Step(c, e).past.created == c.past.created && Step(c, e).re.beats == c.re.beats
  {
    hide WfNodes, WfVotes, WfBeats, WfInstalls;
    hide RequestVote, VoteReplied, AppendEntries, AppendReplied, InstallSnapshot, SnapshotReplied, ApplyLogs;
    hide Snapshot, Restart, FirstBeatFault, BeatOf;
  }

  lemma StepKeepsTraced(c: Cluster, e: Event)
    requires Wf(c) && Elected(c) && Traced(c)
    ensures Traced(Step(c, e)) && CreatedGrow(c.past.created, Step(c, e).past.created)
  {
    hide Wf, Elected, Traced;
    match e
    case ClientStart(i, command) => if Alive(c, i) { ClientStartKeeps(c, i, command); }
    case HeartBeat(i) => if Alive(c, i) { HeartBeatKeeps(c, i); }
    case DeliverAppend(k) => if CanDeliverAppend(c, k) { DeliverAppendKeeps(c, k); QuietShape(c, e); }
    case _ =>
      hide Step;
      QuietShape(c, e);
      StepMoves(c, e);
      StepKeepsElected(c, e);
      QuietKeeps(c, Step(c, e));
  }

  lemma QuietKeeps(c: Cluster, c': Cluster)
    requires Traced(c) && AllKeep(c.nodes, c'.nodes) && AllTrim(c.nodes, c'.nodes) && LeadersGrow(c.el, c'.el)
    requires c'.past.created == c.past.created && c'.re.beats == c.re.beats
    ensures Traced(c')
  {
    OriginsCarry(c.nodes, c'.nodes, c.el, c'.el, c.past.created);
    TrimKnown(c.nodes, c'.nodes, c.past.created);
    BeatsCarry(c.re.beats, c.el, c'.el, c.past.created);
  }

  lemma {:induction false} RunTraced(n: nat, events: seq<Event>)
    ensures Traced(Exec(Init(n), events))
  {
    if events == [] {
    } else {
      hide Wf, Elected, Traced, Step, Init;
      RunTraced(n, events[..|events| - 1]);
      RunElected(n, events[..|events| - 1]);
      StepKeepsTraced(Exec(Init(n), events[..|events| - 1]), events[|events| - 1]);
    }
  }

  lemma {:induction false} CreatedStay(n: nat, events: seq<Event>, j: nat, k: nat)
    requires j <= k <= |events|
    ensures CreatedGrow(At(n, events, j).past.created, At(n, events, k).past.created)
    decreases k
  {
    hide Wf, Elected, Traced, At, Step;
    if j < k {
      CreatedStay(n, events, j, k - 1);
      AtNext(n, events, k - 1);
      AtElected(n, events, k - 1);
      AtTraced(n, events, k - 1);
      StepKeepsTraced(At(n, events, k - 1), events[k - 1]);
    }
  }

  lemma AtTraced(n: nat, events: seq<Event>, k: nat)
    requires k <= |events|
    ensures Traced(At(n, events, k))
  {
    RunTraced(n, events[..k]);
  }

  /** The entry is in some log, on some disk or in some request, delivered or not. */
  ghost predicate Occurs(e: LogEntry, c: Cluster)
  {
    || (exists i :: 0 <= i < |c.nodes| && (e in c.nodes[i].log || e in c.nodes[i].disk.log))
    || (exists r, p :: 0 <= r < |c.re.beats| && p in c.re.beats[r].sent && e in c.re.beats[r].sent[p].entries)
  }

  lemma OccursKnown(e: LogEntry, c: Cluster)
    requires Wf(c) && Traced(c) && Occurs(e, c)
    ensures Known(e, c.past.created)
  {
    if i :| 0 <= i < |c.nodes| && (e in c.nodes[i].log || e in c.nodes[i].disk.log) {
      assert Sound(c.nodes[i]) && AllKnown(c.nodes[i].log, c.past.created);
    } else {
      var r, p :| 0 <= r < |c.re.beats| && p in c.re.beats[r].sent && e in c.re.beats[r].sent[p].entries;
      assert AllKnown(c.re.beats[r].sent[p].entries, c.past.created);
    }
  }

  /** Anywhere at time j and anywhere at time k of a run: same index and term, same command. */
  lemma SameIndexAndTermSameCommand(n: nat, events: seq<Event>, j: nat, k: nat, e: LogEntry, f: LogEntry)
    requires j <= k <= |events| && Occurs(e, At(n, events, j)) && Occurs(f, At(n, events, k))
    requires e.logIndex == f.logIndex && e.logTerm == f.logTerm
    ensures e == f
  {
    hide Wf, Traced, At, Occurs;
    AtTraced(n, events, j);
    AtTraced(n, events, k);
    OccursKnown(e, At(n, events, j));
    OccursKnown(f, At(n, events, k));
    CreatedStay(n, events, j, k);
  }
}
