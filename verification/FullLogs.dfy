/** The logs that snapshots cut short, in full. Beside a run with snapshots goes a shadow of it: a cluster
    of the same nodes that never drops an entry. What a node's snapshot stands for is what the shadow
    still has in front of the node's log; an installed snapshot brings its sender's. */
module FullLogs {
  import opened RaftTypes
  import opened RaftNode
  import opened NodeInvariants
  import opened RaftCluster
  import opened LogAlgebra

  // ---------- nodes ----------

  /** n with a log that starts at index 1. */
  function Unfold(n: Node, full: Log): Node
  {
    n.(log := full, snapIndex := 0, snapTerm := 0, disk := n.disk.(log := full, snapIndex := 0, snapTerm := 0))
  }

  /** What n has of the log is the end of `full`, and its snapshot boundary is the entry before. */
  predicate IsFull(n: Node, full: Log)
  {
    && |full| == n.Last() && full[n.snapIndex..] == n.log && TermOf(full, n.snapIndex) == n.snapTerm
    && Contiguous(full, 0)
  }

  predicate Mirror(n: Node, m: Node) { m == Unfold(n, m.log) && IsFull(n, m.log) }

  /** The shadow sees the same indices and terms. */
  lemma SameView(n: Node, m: Node)
    requires n.Valid() && Mirror(n, m)
    ensures m.Last() == n.Last() && m.LastTerm() == n.LastTerm()
    ensures forall i | n.snapIndex <= i <= n.Last() :: m.TermAt(i) == n.TermAt(i)
    ensures forall k | 0 <= k < |n.log| :: n.log[k] == m.log[n.snapIndex + k]
  {
    forall k | 0 <= k < |n.log| ensures n.log[k] == m.log[n.snapIndex + k] {
      assert m.log[n.snapIndex..][k] == n.log[k];
    }
  }

  lemma SameFields(n: Node, m: Node)
    requires Mirror(n, m)
    ensures m.snapIndex == 0 && m.term == n.term && m.status == n.status && m.halted == n.halted
    ensures m.commitIndex == n.commitIndex && m.lastApplied == n.lastApplied && m.nextIndex == n.nextIndex
    ensures m.disk.term == n.disk.term && m.disk.votedFor == n.disk.votedFor && m.id == n.id && m.peers == n.peers
  {
  }

  lemma MirrorSound(n: Node, m: Node)
    requires Sound(n) && Mirror(n, m)
    ensures Sound(m)
  {
  }

  lemma MirrorKeeps(n: Node, m: Node, n': Node, m': Node)
    requires Sound(n) && Mirror(n, m) && Mirror(n', m') && Keeps(n, n')
    ensures Keeps(m, m')
  {
  }

  lemma ElectionMirror(n: Node, m: Node)
    requires n.Valid() && Mirror(n, m)
    ensures Mirror(DoElection(n), DoElection(m)) && VoteArgsOf(DoElection(n)) == VoteArgsOf(DoElection(m))
  {
    SameView(n, m);
  }

  lemma VoteMirror(n: Node, m: Node, args: VoteArgs)
    requires n.Valid() && Mirror(n, m)
    ensures Mirror(RequestVote(n, args).0, RequestVote(m, args).0) && RequestVote(n, args).1 == RequestVote(m, args).1
  {
    hide UpToDate;
    SameView(n, m);
    CheckMirror(n, m, args);
    CheckMirror(n.StepDown(args.term), m.StepDown(args.term), args);
  }

  lemma CheckMirror(n: Node, m: Node, args: VoteArgs)
    requires n.Valid() && Mirror(n, m)
    ensures UpToDate(m, args.lastIndex, args.lastTerm) == UpToDate(n, args.lastIndex, args.lastTerm)
  {
    SameView(n, m);
  }

  lemma VoteReplyMirror(n: Node, m: Node, count: nat, reply: VoteReply)
    requires n.Valid() && Mirror(n, m)
    ensures Mirror(VoteReplied(n, count, reply).0, VoteReplied(m, count, reply).0)
    ensures VoteReplied(n, count, reply).1 == VoteReplied(m, count, reply).1
  {
    SameView(n, m);
  }

  lemma StartMirror(n: Node, m: Node, command: Op)
    requires n.Valid() && Mirror(n, m)
    ensures Mirror(Start(n, command), Start(m, command))
  {
    SameView(n, m);
    if n.status == Leader {
      var e := LogEntry(command, n.term, n.Last() + 1);
      assert (m.log + [e])[n.snapIndex..] == m.log[n.snapIndex..] + [e];
    }
  }

  lemma FaultMirror(n: Node, m: Node, p: nat)
    requires n.Valid() && Mirror(n, m)
    ensures FirstBeatFault(m, p) == FirstBeatFault(n, p)
    decreases n.peers - p
  {
    if p < n.peers {
      FaultMirror(n, m, p + 1);
    }
  }

  lemma RequestMirror(n: Node, m: Node, p: nat)
    requires n.Valid() && m.Valid() && Mirror(n, m) && p < n.peers && n.snapIndex < n.nextIndex[p] <= n.Last() + 1
    ensures AppendArgsFor(m, p) == AppendArgsFor(n, p)
  {
    SameView(n, m);
    var prev := n.nextIndex[p] - 1;
    assert m.log[prev..] == m.log[n.snapIndex..][prev - n.snapIndex..];
  }

  /** The shadow may have sent to more peers: those the node has to send its snapshot to. */
  predicate MirrorBeat(b: Beat, b': Beat)
  {
    b' == b.(sent := b'.sent) && forall p | p in b.sent :: p in b'.sent && b'.sent[p] == b.sent[p]
  }

  lemma ServedMirror(n: Node, m: Node, p: nat)
    requires n.Valid() && m.Valid() && Mirror(n, m) && Served(n, p)
    ensures Served(m, p) && !NeedsSnapshot(m, p)
  {
    assert forall q | 0 <= q <= p && q < n.peers :: BeatFault(m, q) == BeatFault(n, q);
  }

  lemma BeatMirror(n: Node, m: Node)
    requires n.Valid() && m.Valid() && Mirror(n, m)
    ensures MirrorBeat(BeatOf(n), BeatOf(m))
  {
    SameView(n, m);
    forall p | p in BeatOf(n).sent ensures p in BeatOf(m).sent && BeatOf(m).sent[p] == BeatOf(n).sent[p] {
      ServedMirror(n, m, p);
      RequestMirror(n, m, p);
    }
  }

  lemma AcceptMirror(n: Node, m: Node, args: AppendArgs)
    requires n.Valid() && Mirror(n, m) && Accepts(n, args) && Contiguous(args.entries, args.prevIndex)
    ensures Accepts(m, args)
    ensures Mirror(AppendEntries(n, args).0, AppendEntries(m, args).0)
    ensures AppendEntries(n, args).1 == AppendEntries(m, args).1
  {
    SameView(n, m);
    FollowedMirror(n, m, args);
    ReplicateMirror(Followed(n, args), Followed(m, args), args);
  }

  lemma FollowedMirror(n: Node, m: Node, args: AppendArgs)
    requires n.Valid() && Mirror(n, m)
    ensures Followed(n, args).Valid() && Mirror(Followed(n, args), Followed(m, args))
  {
  }

  lemma ReplicateMirror(n: Node, m: Node, args: AppendArgs)
    requires n.Valid() && Mirror(n, m) && InWindow(n, args) && Contiguous(args.entries, args.prevIndex)
    ensures InWindow(m, args) && Mirror(Replicate(n, args).0, Replicate(m, args).0)
    ensures Replicate(n, args).1 == Replicate(m, args).1
  {
    hide Splice, Clashes, Conflicts, Contiguous;
    ClashMirror(n, m, args.prevIndex, args.entries);
    SpliceMirror(n, m, args.prevIndex, args.entries);
    var full := Splice(m.log, args.prevIndex, args.entries);
    assert n.snapIndex > 0 ==> full[n.snapIndex - 1] == full[..n.snapIndex][n.snapIndex - 1];
  }

  predicate SameEntry(n: Node, m: Node, at: nat, prev: nat, k: nat)
    requires prev + k < |m.log| && at + k < |n.log|
  {
    m.log[prev + k] == n.log[at + k]
  }

  lemma ClashMirror(n: Node, m: Node, prev: nat, entries: Log)
    requires n.Valid() && Mirror(n, m) && n.snapIndex <= prev <= n.Last()
    ensures Clashes(m.log, prev, entries) == Clashes(n.log, prev - n.snapIndex, entries)
    ensures Conflicts(m.log, prev, entries) == Conflicts(n.log, prev - n.snapIndex, entries)
  {
    SameView(n, m);
    var at := prev - n.snapIndex;
    forall k | 0 <= k < |entries| && prev + k < |m.log| ensures SameEntry(n, m, at, prev, k) {
      assert n.log[at + k] == m.log[n.snapIndex + (at + k)];
    }
    assert Clashes(m.log, prev, entries) ==> Clashes(n.log, at, entries) by {
      if k :| 0 <= k < |entries| && prev + k < |m.log|
              && m.log[prev + k].logTerm == entries[k].logTerm && m.log[prev + k].command != entries[k].command {
        assert SameEntry(n, m, at, prev, k);
      }
    }
  }

  lemma SpliceMirror(n: Node, m: Node, prev: nat, entries: Log)
    requires n.Valid() && Mirror(n, m) && n.snapIndex <= prev <= n.Last() && Contiguous(entries, prev)
    ensures var log, full := Splice(n.log, prev - n.snapIndex, entries), Splice(m.log, prev, entries);
      && |full| == n.snapIndex + |log| && full[n.snapIndex..] == log && full[..n.snapIndex] == m.log[..n.snapIndex]
      && Contiguous(full, 0)
  {
    var at, end := prev - n.snapIndex, prev + |entries|;
    var log, full := Splice(n.log, at, entries), Splice(m.log, prev, entries);
    forall k | 0 <= k < |log| ensures full[n.snapIndex + k] == log[k] {
      assert n.snapIndex + k < |m.log| ==> m.log[n.snapIndex + k] == m.log[n.snapIndex..][k];
    }
  }

  lemma AnswerMirror(n: Node, m: Node, p: nat, args: AppendArgs, count: nat, reply: AppendReply)
    requires n.Valid() && Mirror(n, m) && p < n.peers
    ensures Mirror(AppendReplied(n, p, args, count, reply).0, AppendReplied(m, p, args, count, reply).0)
    ensures AppendReplied(n, p, args, count, reply).1 == AppendReplied(m, p, args, count, reply).1
  {
    SameView(n, m);
  }

  lemma ApplyMirror(n: Node, m: Node)
    requires n.Valid() && m.Valid() && Mirror(n, m)
    ensures Mirror(ApplyLogs(n).0, ApplyLogs(m).0) && ApplyLogs(n).1 == ApplyLogs(m).1
  {
    SameView(n, m);
  }

  // steps with which the shadow does not go along

  /** A refusal leaves the log as it is. */
  lemma RefuseMirror(n: Node, m: Node, args: AppendArgs)
    requires n.Valid() && n.Durable() && Mirror(n, m) && !Accepts(n, args)
    ensures Mirror(AppendEntries(n, args).0, Unfold(AppendEntries(n, args).0, m.log))
  {
  }

  lemma SnapshotMirror(n: Node, m: Node, index: int)
    requires n.Valid() && Mirror(n, m)
    ensures Mirror(Snapshot(n, index), Unfold(Snapshot(n, index), m.log))
  {
    SameView(n, m);
    if n.snapIndex < index <= n.commitIndex {
      assert m.log[index..] == m.log[n.snapIndex..][index - n.snapIndex..];
    }
  }

  lemma SnapshotReplyMirror(n: Node, m: Node, p: nat, args: InstallArgs, replyTerm: nat)
    requires n.Valid() && Mirror(n, m) && p < n.peers
    ensures Mirror(SnapshotReplied(n, p, args, replyTerm), Unfold(SnapshotReplied(n, p, args, replyTerm), m.log))
  {
  }

  lemma RestartMirror(n: Node, m: Node)
    requires Sound(n) && Mirror(n, m)
    ensures Mirror(Restart(n), Unfold(Restart(n), m.log))
  {
  }

  /** What a snapshot call carries: the entries up to its index. */
  predicate Carries(args: InstallArgs, payload: Log)
  {
    |payload| == args.snapIndex && TermOf(payload, |payload|) == args.snapTerm && Contiguous(payload, 0)
  }

  /** The whole log after an install: the payload, and behind it what the node had there. */
  function Installed(n: Node, full: Log, args: InstallArgs, payload: Log): Log
  {
    if Takes(n, args) then payload + (if |payload| < |full| then full[|payload|..] else []) else full
  }

  lemma InstallMirror(n: Node, m: Node, args: InstallArgs, payload: Log)
    requires n.Valid() && n.Durable() && Mirror(n, m) && Carries(args, payload)
    ensures Mirror(InstallSnapshot(n, args).0, Unfold(InstallSnapshot(n, args).0, Installed(n, m.log, args, payload)))
  {
    if Takes(n, args) {
      var full := Installed(n, m.log, args, payload);
      var n' := InstallSnapshot(n, args).0;
      assert full[args.snapIndex..] == n'.log by {
        if |payload| < |m.log| {
          assert m.log[|payload|..] == m.log[n.snapIndex..][|payload| - n.snapIndex..];
        }
      }
      assert |payload| > 0 && full[|payload| - 1] == payload[|payload| - 1];
    }
  }

  lemma PayloadCarried(n: Node, m: Node)
    requires n.Valid() && Mirror(n, m)
    ensures Carries(InstallArgsOf(n), m.log[..n.snapIndex])
  {
  }
}
