/** What each message and each answer does to one node, in full: the rules of figures 2 and 13 of the Raft
    paper where the code keeps them, and what it does instead where it does not. */
module Rules {
  import opened RaftTypes
  import opened RaftNode
  import opened PaperRule

  // ---------- terms (figure 2, rules for all servers) ----------

  /** n in a term it heard of: a follower that has voted for nobody. Nothing else of it is different in memory. */
  function Deposed(n: Node, term: nat): Node { n.(status := Follower, term := term, votedFor := NOBODY) }

  /** Only the disk may differ. */
  predicate SameMemory(n: Node, m: Node) { m == n.(disk := m.disk) }

  /** Whoever receives a message ends in the later of the two terms, and says so. */
  lemma ReceiversKeepUp(n: Node, vote: VoteArgs, append: AppendArgs, install: InstallArgs)
    ensures RequestVote(n, vote).0.term == RequestVote(n, vote).1.term == Max(n.term, vote.term)
    ensures AppendEntries(n, append).0.term == Max(n.term, append.term)
    ensures AppendEntries(n, append).0.halted == n.halted ==>
      AppendEntries(n, append).1.term == Max(n.term, append.term)
    ensures InstallSnapshot(n, install).0.term == Max(n.term, install.term)
    ensures !(install.term >= n.term && install.snapIndex <= n.snapIndex) ==>
      InstallSnapshot(n, install).1 == Max(n.term, install.term)
  {
  }

  /** A message of a newer term ends any reign and any candidacy, before anything else is done with it. */
  lemma NewerMessageDeposes(n: Node, vote: VoteArgs, append: AppendArgs, install: InstallArgs)
    ensures vote.term > n.term ==>
      RequestVote(n, vote).0.status == Follower && RequestVote(n, vote).0.votedFor in {NOBODY, vote.candidate}
    ensures append.term > n.term ==>
      AppendEntries(n, append).0.status == Follower && AppendEntries(n, append).0.votedFor == NOBODY
    ensures install.term > n.term ==>
      InstallSnapshot(n, install).0.status == Follower && InstallSnapshot(n, install).0.votedFor == NOBODY
  {
  }

  /** A message of an older term is refused and changes nothing, and the answer tells the newer term. */
  lemma OlderMessageRefused(n: Node, vote: VoteArgs, append: AppendArgs, install: InstallArgs)
    ensures vote.term < n.term ==>
      SameMemory(n, RequestVote(n, vote).0) && RequestVote(n, vote).1 == VoteReply(n.term, false, Expire)
    ensures append.term < n.term ==> AppendEntries(n, append) == (n, AppendReply(n.term, false, -100))
    ensures install.term < n.term ==> InstallSnapshot(n, install) == (n, n.term)
  {
  }

  /** An answer of a newer term ends the reign or candidacy of whoever asked; the counters, the log and all indices
      stay. A vote and a snapshot answer are put on disk at once, a replication answer is not (raft.cpp:291-296). */
  lemma NewerAnswerDeposes(n: Node, p: nat, count: nat, vote: VoteReply, args: AppendArgs, append: AppendReply,
                           call: InstallArgs, install: nat)
    requires p < |n.nextIndex| == |n.matchIndex|
    ensures vote.term > n.term ==>
      && SameMemory(Deposed(n, vote.term), VoteReplied(n, count, vote).0) && VoteReplied(n, count, vote).1 == count
      && VoteReplied(n, count, vote).0.disk == Disk(vote.term, -1, n.snapIndex, n.snapTerm, n.log)
    ensures append.term > n.term ==> AppendReplied(n, p, args, count, append) == (Deposed(n, append.term), count)
    ensures n.status == Leader && n.term == call.term && install > n.term ==>
      && SameMemory(Deposed(n, install), SnapshotReplied(n, p, call, install))
      && SnapshotReplied(n, p, call, install).disk == Disk(install, -1, n.snapIndex, n.snapTerm, n.log)
  {
  }

  /** An answer of an older term, or to a call made in an older one, is dropped. */
  lemma OlderAnswerDropped(n: Node, p: nat, count: nat, vote: VoteReply, args: AppendArgs, append: AppendReply,
                           call: InstallArgs, install: nat)
    requires p < |n.nextIndex| == |n.matchIndex|
    ensures vote.term < n.term ==> VoteReplied(n, count, vote) == (n, count)
    ensures append.term < n.term || (append.term == n.term && n.status != Leader) ==>
      AppendReplied(n, p, args, count, append) == (n, count)
    ensures n.term != call.term || n.status != Leader ==> SnapshotReplied(n, p, call, install) == n
  {
  }

  // ---------- elections ----------

  /** Standing: the next term, a vote for oneself, on disk before anybody is asked; the requests tell where the log
      ends. A leader does not stand. */
  lemma Standing(n: Node)
    requires n.Valid()
    ensures n.status == Leader ==> DoElection(n) == n
    ensures n.status != Leader ==> var m := DoElection(n);
      && SameMemory(n.(status := Candidate, term := n.term + 1, votedFor := n.id), m)
      && m.disk == Disk(n.term + 1, n.id, n.snapIndex, n.snapTerm, n.log)
      && VoteArgsOf(m) == VoteArgs(n.term + 1, n.id, n.snapIndex + |n.log|,
                                   if n.log == [] then n.snapTerm else n.log[|n.log| - 1].logTerm)
  {
  }

  /** The voter's log ends later than the candidate's: in a newer term, or further on in the same. */
  predicate EndsLater(n: Node, args: VoteArgs)
  {
    var lastTerm := if n.log == [] then n.snapTerm else n.log[|n.log| - 1].logTerm;
    lastTerm > args.lastTerm || (lastTerm == args.lastTerm && n.snapIndex + |n.log| > args.lastIndex)
  }

  /** A vote is granted exactly if the term is not over, it is still free or this candidate's, and the voter's log does
      not end later. Vote and term are on disk with the answer. */
  lemma Voting(n: Node, args: VoteArgs)
    requires n.Valid()
    ensures var (m, reply) := RequestVote(n, args);
      && (reply.granted <==> args.term >= n.term && !EndsLater(n, args)
                             && (args.term > n.term || n.votedFor == NOBODY || n.votedFor == args.candidate))
      && m.votedFor == (if reply.granted then args.candidate else if args.term > n.term then NOBODY else n.votedFor)
      && m.status == (if args.term > n.term then Follower else n.status)
      && m == n.(term := m.term, votedFor := m.votedFor, status := m.status, disk := m.disk)
      && m.disk == Disk(m.term, m.votedFor, n.snapIndex, n.snapTerm, n.log)
      && reply.state == (if reply.granted then Normal else if args.term < n.term then Expire else Voted)
  {
  }

  /** A vote of the term counts. More than half of the nodes, the candidate among them, make a leader, who believes
      every peer to be where its own log ends and knows of none what it holds; the counter starts again at 0. */
  lemma Counting(n: Node, count: nat, reply: VoteReply)
    requires reply.term == n.term && |n.nextIndex| == |n.matchIndex| == n.peers
    ensures var (m, count') := VoteReplied(n, count, reply);
      if !reply.granted then (m, count') == (n, count)
      else if 2 * (count + 1) <= n.peers then (m, count') == (n, count + 1)
      else
        && count' == 0
        && (n.status == Leader ==> m == n.(halted := Some(LeaderTwice)))
        && (n.status != Leader ==>
          && m == n.(status := Leader, nextIndex := m.nextIndex, matchIndex := m.matchIndex)
          && |m.nextIndex| == |m.matchIndex| == n.peers
          && forall p | 0 <= p < n.peers :: m.nextIndex[p] == n.snapIndex + |n.log| + 1 && m.matchIndex[p] == 0)
  {
  }

  // ---------- replication ----------

  /** A command becomes the last entry of a leader's log, in the leader's term, and is on disk; others ignore it. */
  lemma Appending(n: Node, command: Op)
    requires n.Valid()
    ensures n.status != Leader ==> Start(n, command) == n
    ensures n.status == Leader ==> var m := Start(n, command);
      && |m.log| == |n.log| + 1 && m.log[..|n.log|] == n.log
      && m.log[|n.log|] == LogEntry(command, n.term, n.snapIndex + |n.log| + 1)
      && m == n.(log := m.log, disk := Disk(n.term, n.votedFor, n.snapIndex, n.snapTerm, m.log))
  {
  }

  /** A request to peer p: everything from its next index on, what is in front of that, and how far the leader has
      committed. */
  lemma Asking(n: Node, p: nat)
    requires n.Valid() && p < n.peers && n.snapIndex < n.nextIndex[p] <= n.Last() + 1
    ensures var args := AppendArgsFor(n, p);
      && args.term == n.term && args.leader == n.id && args.leaderCommit == n.commitIndex
      && args.prevIndex == n.nextIndex[p] - 1 && args.prevTerm == n.TermAt(args.prevIndex)
      && |args.entries| == n.snapIndex + |n.log| - args.prevIndex
      && forall k | 0 <= k < |args.entries| :: args.entries[k] == EntryAt(n, args.prevIndex + 1 + k)
  {
  }

  /** The next index of peer p points into the log, or just behind it, or is below it. */
  predicate Reaches(n: Node, p: nat)
    requires p < |n.nextIndex|
  {
    1 <= n.nextIndex[p] <= n.snapIndex + |n.log| + 1
  }

  /** A heartbeat serves every other node up to the first whose next index is out of reach, and none from there on:
      those whose next index the snapshot covers with a snapshot, the others with a request. */
  lemma Beating(n: Node, first: nat)
    requires n.Valid() && first <= n.peers && forall p | 0 <= p < first && p != n.id :: Reaches(n, p)
    requires first == n.peers || (first != n.id && !Reaches(n, first))
    ensures FirstBeatFault(n, 0) == if first == n.peers then None
                                    else Some(if n.nextIndex[first] < 1 then NextIndexPositive else PrevIndexInLog)
    ensures forall p | 0 <= p < n.peers :: p in Others(n) <==> p != n.id
    ensures forall p | 0 <= p < n.peers :: Served(n, p) <==> p < first && p != n.id
    ensures forall p | 0 <= p < n.peers :: NeedsSnapshot(n, p) <==> n.nextIndex[p] <= n.snapIndex
  {
    FaultFrom(n, 0, first);
    assert forall p | 0 <= p < n.peers :: Reaches(n, p) <==> BeatFault(n, p).None?;
  }

  lemma {:induction false} FaultFrom(n: Node, from: nat, first: nat)
    requires n.Valid() && from <= first <= n.peers && forall p | from <= p < first && p != n.id :: Reaches(n, p)
    requires first == n.peers || (first != n.id && !Reaches(n, first))
    ensures FirstBeatFault(n, from) == if first == n.peers then None else BeatFault(n, first)
    decreases first - from
  {
    if from < first {
      assert from != n.id ==> Reaches(n, from);
      FaultFrom(n, from + 1, first);
    }
  }

  /** The node has an entry at the request's previous index, or its snapshot boundary there, of the same term. */
  predicate Agrees(n: Node, args: AppendArgs)
  {
    n.snapIndex <= args.prevIndex <= n.snapIndex + |n.log|
    && args.prevTerm == if args.prevIndex == n.snapIndex then n.snapTerm
                        else n.log[args.prevIndex - n.snapIndex - 1].logTerm
  }

  /** A request of the current or a newer term makes a follower of the node, whatever it is. */
  predicate Follows(n: Node, term: nat, m: Node)
  {
    && m.term == term && m.status == Follower && m.votedFor == (if term > n.term then NOBODY else n.votedFor)
    && m.id == n.id && m.peers == n.peers && m.nextIndex == n.nextIndex && m.matchIndex == n.matchIndex
    && m.snapIndex == n.snapIndex && m.snapTerm == n.snapTerm && m.lastApplied == n.lastApplied
  }

  /** A request that agrees: its entries are in the log, the tail beyond them stays, the commit index follows the
      leader's as far as the log goes, and all is on disk. */
  lemma Accepting(n: Node, args: AppendArgs)
    requires n.Valid() && n.halted.None? && Contiguous(args.entries, args.prevIndex)
    requires args.term >= n.term && Agrees(n, args)
    requires !Clashes(n.log, args.prevIndex - n.snapIndex, args.entries)
    ensures var (m, reply) := AppendEntries(n, args);
      && Follows(n, args.term, m) && LaidOver(n, args, m) && m.halted.None?
      && m.commitIndex == Max(n.commitIndex, Min(args.leaderCommit, m.snapIndex + |m.log|))
      && m.disk == Disk(m.term, m.votedFor, m.snapIndex, m.snapTerm, m.log)
      && reply == AppendReply(args.term, true, 0)
  {
    AppendOutcome(n, args);
  }

  /** A command that differs from the one held in the same term ends the process; nothing gets to the disk. */
  lemma Clashing(n: Node, args: AppendArgs)
    requires n.Valid() && args.term >= n.term && Agrees(n, args)
    requires Clashes(n.log, args.prevIndex - n.snapIndex, args.entries)
    ensures AppendEntries(n, args).0.halted == Some(SameTermOtherCommand) && AppendEntries(n, args).0.disk == n.disk
  {
  }

  /** A request that does not agree leaves the log alone. */
  lemma Refusing(n: Node, args: AppendArgs)
    requires n.Valid() && args.term >= n.term && !Agrees(n, args)
    ensures var (m, reply) := AppendEntries(n, args);
      && Follows(n, args.term, m) && m.log == n.log && m.commitIndex == n.commitIndex && m.halted == n.halted
      && m.disk == Disk(m.term, m.votedFor, n.snapIndex, n.snapTerm, n.log)
      && reply.term == args.term && !reply.success && PointsBack(n, args.prevIndex, reply.updateNext)
  {
    if n.snapIndex <= args.prevIndex <= n.Last() {
      var m := Followed(n, args);
      BackOffRun(m, args.prevIndex, m.TermAt(args.prevIndex), args.prevIndex);
      assert forall i | n.snapIndex <= i <= n.Last() :: m.TermAt(i) == n.TermAt(i);
    }
  }

  /** Where the leader should go on: behind the follower's log if that is too short, behind its snapshot if that reaches
      further, else at the first index of the run of equal terms that the previous index is in. */
  predicate PointsBack(n: Node, prev: nat, next: int)
    requires n.Valid()
  {
    if prev > n.Last() then next == n.Last() + 1
    else if prev < n.snapIndex then next == n.snapIndex + 1
    else
      || (n.snapIndex < next <= prev && n.TermAt(next - 1) != n.TermAt(prev)
          && forall i | next <= i <= prev :: n.TermAt(i) == n.TermAt(prev))
      || (next == prev && forall i | n.snapIndex <= i <= prev :: n.TermAt(i) == n.TermAt(prev))
  }

  lemma BackOffRun(n: Node, i: int, t: nat, none: nat)
    requires n.snapIndex - 1 <= i <= n.Last()
    ensures var next := BackOff(n, i, t, none);
      || (n.snapIndex < next <= i + 1 && n.TermAt(next - 1) != t && forall j | next <= j <= i :: n.TermAt(j) == t)
      || (next == none && forall j | n.snapIndex <= j <= i :: n.TermAt(j) == t)
    decreases i + 1
  {
    if i >= n.snapIndex && n.TermAt(i) == t {
      BackOffRun(n, i - 1, t, none);
    }
  }

  /** An answer of the leader's own term. A refusal moves this peer's next index to where it points, and nothing else.
      */
  lemma Refused(n: Node, p: nat, args: AppendArgs, count: nat, reply: AppendReply)
    requires p < |n.nextIndex| == |n.matchIndex| && n.status == Leader && reply.term == n.term && !reply.success
    ensures var (m, count') := AppendReplied(n, p, args, count, reply);
      && count' == count && m == n.(nextIndex := m.nextIndex) && |m.nextIndex| == |n.nextIndex|
      && forall q | 0 <= q < |n.nextIndex| ::
           m.nextIndex[q] == if q == p && reply.updateNext != -100 then reply.updateNext else n.nextIndex[q]
  {
  }

  /** A success: the peer holds all that the request covered. With it more than half of the nodes may do; then the
      commit index moves there, if the last entry sent is of the leader's term. */
  lemma Matched(n: Node, p: nat, args: AppendArgs, count: nat, reply: AppendReply)
    requires p < |n.nextIndex| == |n.matchIndex| && n.status == Leader && reply.term == n.term && reply.success
    requires n.matchIndex[p] <= n.Last() && args.prevIndex + |args.entries| <= n.Last()
    ensures var (m, count') := AppendReplied(n, p, args, count, reply);
      var held := Max(n.matchIndex[p], args.prevIndex + |args.entries|);
      && m == n.(nextIndex := m.nextIndex, matchIndex := m.matchIndex, commitIndex := m.commitIndex)
      && |m.nextIndex| == |n.nextIndex| && |m.matchIndex| == |n.matchIndex|
      && (forall q | 0 <= q < |n.nextIndex| ::
           && m.matchIndex[q] == (if q == p then held else n.matchIndex[q])
           && m.nextIndex[q] == (if q == p then held + 1 else n.nextIndex[q]))
      && count' == (if 2 * (count + 1) <= n.peers then count + 1 else 0)
      && m.commitIndex == (if 2 * (count + 1) > n.peers && args.entries != []
                              && args.entries[|args.entries| - 1].logTerm == n.term
                           then Max(n.commitIndex, args.prevIndex + |args.entries|) else n.commitIndex)
  {
  }

  /** A success for more than the leader has ends the process. */
  lemma MatchedTooFar(n: Node, p: nat, args: AppendArgs, count: nat, reply: AppendReply)
    requires p < |n.nextIndex| == |n.matchIndex| && n.status == Leader && reply.term == n.term && reply.success
    requires n.matchIndex[p] > n.Last() || args.prevIndex + |args.entries| > n.Last()
    ensures AppendReplied(n, p, args, count, reply).0 == n.(halted := Some(NextIndexInLog))
  {
  }

  // ---------- applying, snapshots, restarts ----------

  /** What is committed and not yet applied is handed over, in order, and nothing else of the node changes. */
  lemma Applying(n: Node)
    requires n.Valid()
    ensures var (m, msgs) := ApplyLogs(n);
      && m == n.(lastApplied := Max(n.lastApplied, n.commitIndex)) && |msgs| == m.lastApplied - n.lastApplied
      && forall k | 0 <= k < |msgs| ::
           msgs[k] == ApplyMsg(n.lastApplied + 1 + k, EntryAt(n, n.lastApplied + 1 + k).command)
  {
  }

  /** A snapshot that is taken moves the boundary, and the applied index if that is behind; the rest stays. */
  lemma Snapshotting(n: Node, index: int)
    requires n.Valid() && n.snapIndex < index <= n.commitIndex
    ensures var m := Snapshot(n, index);
      && m == n.(log := m.log, snapIndex := index, snapTerm := n.TermAt(index),
                 lastApplied := Max(n.lastApplied, index), disk := m.disk)
      && m.log == n.log[index - n.snapIndex..]
      && m.disk == Disk(n.term, n.votedFor, index, m.snapTerm, m.log)
  {
  }

  /** A snapshot call of the current or a newer term makes a follower of the node. One that reaches no further than the
      node's own changes nothing else; any other becomes the boundary, with what is behind it committed and applied. */
  lemma Installing(n: Node, args: InstallArgs)
    requires n.Valid() && n.Durable() && args.term >= n.term
    ensures var (m, reply) := InstallSnapshot(n, args);
      && m.term == args.term && m.status == Follower
      && m.votedFor == (if args.term > n.term then NOBODY else n.votedFor)
      && m.id == n.id && m.peers == n.peers && m.nextIndex == n.nextIndex && m.matchIndex == n.matchIndex
      && m.halted == n.halted
      && (args.snapIndex <= n.snapIndex ==>
        && reply == 0 && m.log == n.log && m.snapIndex == n.snapIndex && m.snapTerm == n.snapTerm
        && m.commitIndex == n.commitIndex && m.lastApplied == n.lastApplied
        && m.disk == if args.term > n.term then m.Saved() else n.disk)
      && (args.snapIndex > n.snapIndex ==>
        && reply == args.term && m.snapIndex == args.snapIndex && m.snapTerm == args.snapTerm
        && m.log == (if n.Last() > args.snapIndex then n.log[args.snapIndex - n.snapIndex..] else [])
        && m.commitIndex == Max(n.commitIndex, args.snapIndex) && m.lastApplied == Max(n.lastApplied, args.snapIndex)
        && m.disk == Disk(m.term, m.votedFor, m.snapIndex, m.snapTerm, m.log))
  {
  }

  /** The call tells the sender's term and boundary. An answer of no newer term, while the sender leads the call's term,
      means that the peer has the snapshot or a later one. */
  lemma SnapshotAnswered(n: Node, p: nat, call: InstallArgs, reply: nat)
    requires p < |n.nextIndex| == |n.matchIndex| && n.status == Leader && n.term == call.term && reply <= n.term
    ensures InstallArgsOf(n) == InstallArgs(n.term, n.id, n.snapIndex, n.snapTerm)
    ensures var m := SnapshotReplied(n, p, call, reply);
      && m == n.(nextIndex := m.nextIndex, matchIndex := m.matchIndex)
      && |m.nextIndex| == |n.nextIndex| && |m.matchIndex| == |n.matchIndex|
      && forall q | 0 <= q < |n.nextIndex| ::
           && m.matchIndex[q] == (if q == p then call.snapIndex else n.matchIndex[q])
           && m.nextIndex[q] == (if q == p then call.snapIndex + 1 else n.nextIndex[q])
  {
  }

  /** After a restart the node has what was on disk, follows, and counts nothing as committed but what its snapshot
      covers as applied. */
  lemma Restarting(n: Node)
    ensures var m, d := Restart(n), n.disk;
      && m.id == n.id && m.peers == n.peers && m.term == d.term && m.votedFor == d.votedFor && m.status == Follower
      && m.log == d.log && m.snapIndex == d.snapIndex && m.snapTerm == d.snapTerm && m.disk == d && m.halted.None?
      && m.commitIndex == 0 && m.lastApplied == d.snapIndex
      && |m.nextIndex| == |m.matchIndex| == n.peers
      && forall p | 0 <= p < n.peers :: m.nextIndex[p] == 0 && m.matchIndex[p] == 0
  {
  }

  /** Before anything was saved: term 0, no vote, no log, no snapshot. */
  lemma FirstStart(id: nat, peers: nat)
    ensures var m := Boot(id, peers, BLANK_DISK);
      m.term == 0 && m.votedFor == -1 && m.log == [] && m.snapIndex == m.snapTerm == 0 && m.status == Follower
  {
  }
}
