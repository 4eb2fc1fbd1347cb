/** What every locked region of one node keeps, whatever its peers send: the log stays contiguous
    above the snapshot boundary, snapshot index <= last applied <= last index, commit index <= last
    index, the last index never decreases, and the disk stays in step. */
module NodeInvariants {
  import opened RaftTypes
  import opened RaftNode

  /** n' may follow n: both well formed, and no index, durable term or durable vote was taken back. */
  ghost predicate Keeps(n: Node, n': Node)
  {
    && n'.Valid() && n'.Durable()
    && n'.id == n.id && n'.peers == n.peers
    && n.Last() <= n'.Last() && n.snapIndex <= n'.snapIndex
    && n.disk.term <= n'.disk.term
    && (n.disk.term == n'.disk.term && n.disk.votedFor != NOBODY ==> n'.disk.votedFor == n.disk.votedFor)
  }

  /** Only the count of votes makes a leader; a leader of a term was its leader before the step. */
  ghost predicate NoCoup(n: Node, n': Node)
  {
    n'.status == Leader ==> n.status == Leader && n'.term == n.term
  }

  predicate SameLog(n: Node, n': Node)
  {
    n'.log == n.log && n'.snapIndex == n.snapIndex && n'.snapTerm == n.snapTerm
  }

  /** The log is what it was, or lost entries to a newer snapshot. */
  ghost predicate Trims(n: Node, n': Node)
  {
    || SameLog(n, n')
    || (n.snapIndex < n'.snapIndex && forall k | 0 <= k < |n'.log| :: n'.log[k] in n.log)
  }

  ghost predicate Sound(n: Node) { n.Valid() && n.Durable() }

  lemma HaltKeeps(n: Node, a: Assertion)
    requires Sound(n)
    ensures Keeps(n, n.Halt(a)) && NoCoup(n, n.Halt(a))
    ensures SameLog(n, n.Halt(a))
  {
  }

  lemma RestartKeeps(n: Node)
    requires Sound(n)
    ensures Keeps(n, Restart(n)) && NoCoup(n, Restart(n))
    ensures SameLog(n, Restart(n))
  {
  }

  lemma DoElectionKeeps(n: Node)
    requires Sound(n)
    ensures Keeps(n, DoElection(n)) && NoCoup(n, DoElection(n))
    ensures SameLog(n, DoElection(n))
  {
  }

  lemma RequestVoteKeeps(n: Node, args: VoteArgs)
    requires Sound(n)
    ensures Keeps(n, RequestVote(n, args).0) && NoCoup(n, RequestVote(n, args).0)
    ensures SameLog(n, RequestVote(n, args).0)
  {
  }

  lemma VoteRepliedKeeps(n: Node, count: nat, reply: VoteReply)
    requires Sound(n) && (reply.granted ==> reply.term <= n.disk.term)
    ensures Keeps(n, VoteReplied(n, count, reply).0)
    ensures SameLog(n, VoteReplied(n, count, reply).0)
  {
  }

  lemma StartKeeps(n: Node, command: Op)
    requires Sound(n)
    ensures Keeps(n, Start(n, command)) && NoCoup(n, Start(n, command))
  {
  }

  lemma AppendEntriesKeeps(n: Node, args: AppendArgs)
    requires Sound(n) && Contiguous(args.entries, args.prevIndex)
    ensures Keeps(n, AppendEntries(n, args).0) && NoCoup(n, AppendEntries(n, args).0)
  {
    if args.term >= n.term {
      FollowedKeeps(n, args);
      if Accepts(n, args) {
        ReplicateKeeps(Followed(n, args), args);
      }
    }
  }

  lemma FollowedKeeps(n: Node, args: AppendArgs)
    requires Sound(n) && args.term >= n.term
    ensures Keeps(n, Followed(n, args)) && Keeps(n, Followed(n, args).Persist()) && Followed(n, args).status == Follower
  {
  }

  lemma ReplicateKeeps(m: Node, args: AppendArgs)
    requires Sound(m) && InWindow(m, args) && Contiguous(args.entries, args.prevIndex)
    ensures Keeps(m, Replicate(m, args).0) && Replicate(m, args).0.status == m.status
  {
    AbsorbKeeps(m, args);
  }

  lemma AbsorbKeeps(m: Node, args: AppendArgs)
    requires m.Valid() && InWindow(m, args) && Contiguous(args.entries, args.prevIndex)
    ensures Absorb(m, args).Valid() && m.Last() <= Absorb(m, args).Last() && args.End() <= Absorb(m, args).Last()
  {
  }

  lemma AppendRepliedKeeps(n: Node, p: nat, args: AppendArgs, count: nat, reply: AppendReply)
    requires Sound(n) && p < n.peers
    ensures Keeps(n, AppendReplied(n, p, args, count, reply).0) && NoCoup(n, AppendReplied(n, p, args, count, reply).0)
    ensures SameLog(n, AppendReplied(n, p, args, count, reply).0)
  {
  }

  lemma ApplyLogsKeeps(n: Node)
    requires Sound(n)
    ensures Keeps(n, ApplyLogs(n).0) && NoCoup(n, ApplyLogs(n).0)
    ensures SameLog(n, ApplyLogs(n).0)
  {
  }

  lemma SnapshotKeeps(n: Node, index: int)
    requires Sound(n)
    ensures Keeps(n, Snapshot(n, index)) && NoCoup(n, Snapshot(n, index))
    ensures Trims(n, Snapshot(n, index))
  {
  }

  lemma RebaseValid(m: Node, args: InstallArgs)
    requires m.Valid() && m.snapIndex < args.snapIndex
    ensures Rebase(m, args).Valid()
  {
  }

  lemma InstallSnapshotKeeps(n: Node, args: InstallArgs)
    requires Sound(n)
    ensures Keeps(n, InstallSnapshot(n, args).0) && NoCoup(n, InstallSnapshot(n, args).0)
    ensures Trims(n, InstallSnapshot(n, args).0)
  {
  }

  lemma SnapshotRepliedKeeps(n: Node, p: nat, args: InstallArgs, replyTerm: nat)
    requires Sound(n) && p < n.peers && args.snapIndex <= n.Last()
    ensures Keeps(n, SnapshotReplied(n, p, args, replyTerm)) && NoCoup(n, SnapshotReplied(n, p, args, replyTerm))
    ensures SameLog(n, SnapshotReplied(n, p, args, replyTerm))
  {
  }
}
