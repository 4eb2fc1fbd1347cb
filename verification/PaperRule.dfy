/** What a successful AppendEntries leaves in the log, and how that compares with the rule of the Raft
    paper (section 5.3): truncate at the first conflict, then append. The source overwrites without
    truncating (raft.cpp:503-531), and the two agree exactly on the clean requests of CleanRuns. */
module PaperRule {
  import opened RaftTypes
  import opened RaftNode
  import opened RaftCluster
  import opened EntryIdentity
  import opened CleanRuns

  /** What the paper's rule comes to, whatever position it conflicts at. */
  lemma {:induction false} PaperOutcome(log: seq<LogEntry>, base: nat, at: nat, entries: seq<LogEntry>)
    requires Contiguous(log, base) && Contiguous(entries, base + at) && at <= |log| && !Clashes(log, at, entries)
    ensures PaperAppend(log, at, entries) ==
      (if !Conflicts(log, at, entries) && at + |entries| <= |log| then log else log[..at] + entries)
    decreases |entries|
  {
    if entries == [] {
      assert log[..at] + entries == log[..at];
    } else if at < |log| && log[at].logTerm == entries[0].logTerm {
      var rest := entries[1..];
      assert log[at].command == entries[0].command;
      assert forall k | 0 <= k < |rest| :: rest[k] == entries[k + 1] && at + 1 + k == at + (k + 1);
      PaperOutcome(log, base, at + 1, rest);
      ConflictsShift(log, at, entries);
      assert log[..at + 1] + rest == log[..at] + entries;
    } else if at < |log| {
      assert log[at + 0].logTerm != entries[0].logTerm;
    }
  }

  lemma ConflictsShift(log: seq<LogEntry>, at: nat, entries: seq<LogEntry>)
    requires entries != [] && at < |log| && log[at].logTerm == entries[0].logTerm
    ensures Conflicts(log, at + 1, entries[1..]) <==> Conflicts(log, at, entries)
  {
    if k :| 0 <= k < |entries| && at + k < |log| && log[at + k].logTerm != entries[k].logTerm {
      assert log[at + 1 + (k - 1)].logTerm != entries[1..][k - 1].logTerm;
    }
    if k :| 0 <= k < |entries[1..]| && at + 1 + k < |log| && log[at + 1 + k].logTerm != entries[1..][k].logTerm {
      assert log[at + (k + 1)].logTerm != entries[k + 1].logTerm;
    }
  }

  /** Overwriting gives the paper's log if and only if there is no conflict or no tail to drop. */
  lemma SpliceIsPaper(log: seq<LogEntry>, base: nat, at: nat, entries: seq<LogEntry>)
    requires Contiguous(log, base) && Contiguous(entries, base + at) && at <= |log| && !Clashes(log, at, entries)
    ensures Splice(log, at, entries) == PaperAppend(log, at, entries) <==>
      !Conflicts(log, at, entries) || at + |entries| >= |log|
  {
    PaperOutcome(log, base, at, entries);
    if !Conflicts(log, at, entries) && at + |entries| <= |log| {
      forall k | 0 <= k < |entries| ensures log[at + k] == entries[k] {
        assert log[at + k].logTerm == entries[k].logTerm;
      }
      assert Splice(log, at, entries) == log;
    }
  }

  /** Index by index: old log through prev, then the sent entries, then the old tail beyond them. */
  predicate LaidOver(n: Node, args: AppendArgs, n': Node)
    requires InWindow(n, args)
  {
    && n'.snapIndex == n.snapIndex && n'.snapTerm == n.snapTerm && n'.Last() == Max(n.Last(), args.End())
    && forall i | n.snapIndex < i <= n'.Last() ::
         EntryAt(n', i) == if args.prevIndex < i <= args.End() then args.entries[i - args.prevIndex - 1]
                           else EntryAt(n, i)
  }

  /** One request against one node, all outcomes. */
  lemma AppendOutcome(n: Node, args: AppendArgs)
    requires n.Valid() && Contiguous(args.entries, args.prevIndex) && n.halted.None?
    ensures var (n', reply) := AppendEntries(n, args);
      && (reply.success <==> Accepts(n, args) && n'.halted.None?)
      && (n'.halted.Some? <==> Accepts(n, args) && Clashes(n.log, args.prevIndex - n.snapIndex, args.entries))
      && (reply.success ==> LaidOver(n, args, n') && n'.Saved() == n'.disk)
      && (!reply.success ==> n'.log == n.log && n'.snapIndex == n.snapIndex && n'.commitIndex == n.commitIndex)
      && (reply.success ==> n'.commitIndex == Max(n.commitIndex, Min(args.leaderCommit, n'.Last())))
  {
    if Accepts(n, args) && !Clashes(n.log, args.prevIndex - n.snapIndex, args.entries) {
      SpliceLays(n, args, AppendEntries(n, args).0);
    }
  }

  lemma SpliceLays(n: Node, args: AppendArgs, n': Node)
    requires InWindow(n, args) && n'.snapIndex == n.snapIndex && n'.snapTerm == n.snapTerm
    requires n'.log == Splice(n.log, args.prevIndex - n.snapIndex, args.entries)
    ensures LaidOver(n, args, n')
  {
  }

  /** In every run an accepted request succeeds, and it leaves the paper's log exactly when it is clean. */
  lemma AcceptedRequests(n: nat, events: seq<Event>, t: nat, k: AppendKey)
    requires t <= |events| && CanDeliverAppend(At(n, events, t), k)
    ensures var c := At(n, events, t);
      var m, args := c.nodes[k.peer], c.re.beats[k.round].sent[k.peer];
      var (m', reply) := AppendEntries(m, args);
      && m'.halted.None? && (reply.success <==> Accepts(m, args))
      && (reply.success ==>
           && LaidOver(m, args, m')
           && (m'.log == PaperAppend(m.log, args.prevIndex - m.snapIndex, args.entries) <==> CleanAppend(m, args)))
  {
    hide At, Wf, Traced, CleanAppend, LaidOver, PaperAppend, AppendEntries;
    var c := At(n, events, t);
    AtTraced(n, events, t);
    Deliverable(c, k);
    AcceptedRequest(c.nodes[k.peer], c.re.beats[k.round].sent[k.peer], c.past.created);
  }

  lemma Deliverable(c: Cluster, k: AppendKey)
    requires Wf(c) && Traced(c) && CanDeliverAppend(c, k)
    ensures var m, args := c.nodes[k.peer], c.re.beats[k.round].sent[k.peer];
      && m.Valid() && m.halted.None? && Contiguous(args.entries, args.prevIndex)
      && AllKnown(m.log, c.past.created) && AllKnown(args.entries, c.past.created)
  {
    SentKnown(c, k);
  }

  lemma AcceptedRequest(m: Node, args: AppendArgs, created: map<(nat, nat), Op>)
    requires m.Valid() && m.halted.None? && Contiguous(args.entries, args.prevIndex)
    requires AllKnown(m.log, created) && AllKnown(args.entries, created)
    ensures var (m', reply) := AppendEntries(m, args);
      && m'.halted.None? && (reply.success <==> Accepts(m, args))
      && (reply.success ==>
           && LaidOver(m, args, m')
           && (m'.log == PaperAppend(m.log, args.prevIndex - m.snapIndex, args.entries) <==> CleanAppend(m, args)))
  {
    AppendOutcome(m, args);
    if Accepts(m, args) {
      var at := args.prevIndex - m.snapIndex;
      NoClash(m.log, m.snapIndex, at, args.entries, created);
      SpliceIsPaper(m.log, m.snapIndex, at, args.entries);
      AbsorbedLog(m, args);
    }
  }

  lemma AbsorbedLog(m: Node, args: AppendArgs)
    requires Accepts(m, args) && !Clashes(m.log, args.prevIndex - m.snapIndex, args.entries)
    ensures AppendEntries(m, args).0.log == Splice(m.log, args.prevIndex - m.snapIndex, args.entries)
  {
  }

  // ---------- snapshots ----------

  /** Taking a snapshot drops what it covers and nothing else: every index from it on keeps its term and
      entry, the last index stays, and nothing happens for an index that is covered or not committed. */
  lemma SnapshotOutcome(n: Node, index: int)
    requires n.Valid()
    ensures var n' := Snapshot(n, index);
      && n'.Last() == n.Last()
      && (n.snapIndex < index <= n.commitIndex ==> n'.snapIndex == index && n'.Saved() == n'.disk)
      && (index <= n.snapIndex || index > n.commitIndex ==> n' == n)
      && (forall i | n'.snapIndex <= i <= n'.Last() :: n'.TermAt(i) == n.TermAt(i))
      && (forall i | n'.snapIndex < i <= n'.Last() :: EntryAt(n', i) == EntryAt(n, i))
  {
  }

  /** The log after a snapshot as the paper words it (section 7, figure 13): entries behind the snapshot
      stay only if the log holds the snapshot's last entry; otherwise the whole log goes. */
  function PaperInstalled(m: Node, args: InstallArgs): seq<LogEntry>
  {
    if m.snapIndex < args.snapIndex <= m.Last() && m.TermAt(args.snapIndex) == args.snapTerm
    then m.log[args.snapIndex - m.snapIndex..] else []
  }

  /** The source does not look at the term (raft.cpp:639-643), so it leaves the paper's log if and only if
      the log does not reach past the snapshot or has its last entry. */
  lemma InstallIsPaper(n: Node, args: InstallArgs)
    requires n.Valid() && args.term >= n.term && args.snapIndex > n.snapIndex
    ensures var n' := InstallSnapshot(n, args).0;
      && n'.snapIndex == args.snapIndex && n'.snapTerm == args.snapTerm && n'.Last() == Max(n.Last(), args.snapIndex)
      && (forall i | n'.snapIndex < i <= n'.Last() :: EntryAt(n', i) == EntryAt(n, i))
      && (n'.log == PaperInstalled(n, args) <==>
          n.Last() <= args.snapIndex || n.TermAt(args.snapIndex) == args.snapTerm)
  {
    var n' := InstallSnapshot(n, args).0;
    if n.Last() > args.snapIndex {
      assert n'.log == n.log[args.snapIndex - n.snapIndex..] && n'.log != [];
    } else {
      assert n'.log == [];
    }
  }
}
