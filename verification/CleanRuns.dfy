/** Clean runs. The source overwrites a conflicting entry but keeps what follows it (raft.cpp:521-524),
    and it keeps what follows an installed snapshot without a look at the terms (raft.cpp:639-643); a run is
    clean when neither ever matters: every accepted request meets no conflicting term or reaches the end of
    the follower's log, and so does every snapshot a node takes over. */
module CleanRuns {
  import opened RaftTypes
  import opened RaftNode
  import opened RaftCluster

  /** An accepted request meets no conflict, or there is nothing behind it. */
  predicate CleanAppend(n: Node, args: AppendArgs)
  {
    Accepts(n, args) ==> !Conflicts(n.log, args.prevIndex - n.snapIndex, args.entries) || args.End() >= n.Last()
  }

  /** A snapshot taken over ends at an entry the log has in the same term, or there is nothing behind it. */
  predicate CleanInstall(n: Node, args: InstallArgs)
  {
    n.snapIndex < args.snapIndex < n.Last() && args.term >= n.term ==> n.TermAt(args.snapIndex) == args.snapTerm
  }

  ghost predicate Clean(c: Cluster, e: Event)
  {
    && (e.DeliverAppend? && CanDeliverAppend(c, e.append) ==>
      CleanAppend(c.nodes[e.append.peer], c.re.beats[e.append.round].sent[e.append.peer]))
    && (e.DeliverInstall? && CanDeliverInstall(c, e.install) ==>
      CleanInstall(c.nodes[c.sn.installs[e.install].peer], c.sn.installs[e.install].args))
  }

  ghost predicate CleanRun(n: nat, events: seq<Event>)
  {
    forall k | 0 <= k < |events| :: Clean(At(n, events, k), events[k])
  }

  lemma CleanPrefix(n: nat, events: seq<Event>, k: nat)
    requires CleanRun(n, events) && k <= |events|
    ensures CleanRun(n, events[..k])
  {
    hide Clean, Exec, Init;
    forall j | 0 <= j < k ensures Clean(At(n, events[..k], j), events[..k][j]) {
      assert events[..k][..j] == events[..j];
      assert Clean(At(n, events, j), events[j]);
    }
  }

  lemma CleanLast(n: nat, events: seq<Event>)
    requires CleanRun(n, events) && events != []
    ensures CleanRun(n, events[..|events| - 1])
    ensures Clean(Exec(Init(n), events[..|events| - 1]), events[|events| - 1])
  {
    CleanPrefix(n, events, |events| - 1);
    assert Clean(At(n, events, |events| - 1), events[|events| - 1]);
  }

  // ---------- clusters without snapshots ----------

  /** Without snapshots taken there are none to send, so logs start at index 1 on every node. */
  ghost predicate Plain(c: Cluster)
  {
    (forall i | 0 <= i < |c.nodes| :: c.nodes[i].snapIndex == 0) && c.sn.installs == [] && c.sn.threads == {}
  }

  lemma StepKeepsPlain(c: Cluster, e: Event)
    requires Wf(c) && Plain(c) && !e.TakeSnapshot?
    ensures Plain(Step(c, e))
    ensures !e.ClientStart? && !e.DeliverAppend? ==> AllSame(c.nodes, Step(c, e).nodes)
  {
    hide Wf, AllKeep, NoCoups, AllTrim;
    StepMoves(c, e);
    match e
    case DeliverInstall(k) =>
      assert !CanDeliverInstall(c, k);
      NodesWf(c);
      NoneMoves(c.nodes);
    case DeliverAppend(k) => if CanDeliverAppend(c, k) { AppendPlain(c, k); }
    case HeartBeat(i) => if Alive(c, i) { BeatPlain(c, i); }
    case _ => TransfersSame(c, e);
  }

  lemma NodesWf(c: Cluster)
    requires Wf(c)
    ensures WfNodes(c.nodes)
  {
  }

  lemma AppendPlain(c: Cluster, k: AppendKey)
    requires Wf(c) && Plain(c) && CanDeliverAppend(c, k)
    ensures Plain(DeliverAppendStep(c, k))
  {
    hide Wf;
    DeliverAppendMoves(c, k);
  }

  lemma BeatPlain(c: Cluster, i: nat)
    requires Wf(c) && Plain(c) && Alive(c, i)
    ensures Plain(HeartBeatStep(c, i))
  {
    hide Wf, Sending, FirstBeatFault;
    SendingWf(c, i);
    SendingPlain(c, i);
  }

  lemma SendingPlain(c: Cluster, i: nat)
    requires Wf(c) && Plain(c) && i < |c.nodes|
    ensures Plain(Sending(c, i))
  {
    hide WfVotes, WfBeats, WfInstalls, Contiguous, BeatOf;
    var n := c.nodes[i];
    assert forall p | p in Others(n) && Served(n, p) :: !NeedsSnapshot(n, p);
  }

  lemma TransfersSame(c: Cluster, e: Event)
    requires Wf(c) && Plain(c) && !e.HeartBeat? && !e.TakeSnapshot? && !e.DeliverInstall? && !e.DeliverAppend?
    ensures Plain(Step(c, e))
  {
    hide WfVotes, WfBeats, WfInstalls, Contiguous, AllKeep, NoCoups, AllTrim, Node.Durable;
    StepMoves(c, e);
    assert forall k :: !CanHandleInstall(c, k);
    if e.ClientStart? {
    } else {
      assert AllSame(c.nodes, Step(c, e).nodes);
    }
  }
}
