/** The node as raft.cpp runs it: fields updated in place under one lock, one method per locked
    region, each proved against its function in RaftNode. */
module RaftServer {
  import opened RaftTypes
  import N = RaftNode
  import I = NodeInvariants

  /** One round of the loop over the sent entries. */
  lemma LayOne(log: seq<LogEntry>, at: nat, entries: seq<LogEntry>, i: nat)
    requires at <= |log| && i < |entries|
    ensures var now := N.Splice(log, at, entries[..i]);
      && |now| == Max(|log|, at + i)
      && (at + i < |now| ==> now[at + i] == log[at + i])
      && N.Splice(log, at, entries[..i + 1]) == (if at + i < |now| then now[at + i := entries[i]]
        else now + [entries[i]])
    ensures N.Clashes(log, at, entries[..i + 1]) <==>
      N.Clashes(log, at, entries[..i])
      || (at + i < |log| && log[at + i].logTerm == entries[i].logTerm && log[at + i].command != entries[i].command)
  {
    assert entries[..i + 1] == entries[..i] + [entries[i]];
    if at + i < |log| {
      assert log[at + i..] == [log[at + i]] + log[at + i + 1..];
    }
  }

  lemma LayOneContiguous(log: seq<LogEntry>, base: nat, at: nat, entries: seq<LogEntry>, i: nat)
    requires at <= |log| && i < |entries| && Contiguous(entries, base + at)
    requires Contiguous(N.Splice(log, at, entries[..i]), base)
    ensures entries[i].logIndex == base + at + i + 1
    ensures Contiguous(N.Splice(log, at, entries[..i + 1]), base)
  {
    LayOne(log, at, entries, i);
  }

  class Raft {
    const raftId: nat
    const peers: nat
    var currentTerm: nat
    var votedFor: int
    var logs: seq<LogEntry>
    var commitIndex: nat
    var lastApplied: nat
    var nextIndex: seq<int>
    var matchIndex: seq<nat>
    var status: Status
    var lastSnapshotIndex: nat
    var lastSnapshotTerm: nat
    var disk: Disk
    var halted: Option<Assertion>

    function View(): N.Node
      reads this
    {
      N.Node(raftId, peers, currentTerm, votedFor, status, logs, lastSnapshotIndex, lastSnapshotTerm,
             commitIndex, lastApplied, nextIndex, matchIndex, disk, halted)
    }

    predicate Running()
      reads this
    {
      View().Valid() && halted.None?
    }

    /** The node has become `n`; after a failed assertion only the disk still matters. */
    twostate predicate Became(n: N.Node)
      reads this
    {
      if n.halted.Some? then halted == n.halted && disk == old(disk) else View() == n
    }

    constructor (id: nat, count: nat, saved: Disk)
      requires id < count
      ensures View() == N.Boot(id, count, saved)
    {
      raftId, peers, disk := id, count, saved;
      status, commitIndex, lastApplied, halted := Follower, 0, 0, None;
      nextIndex, matchIndex := [], [];
      currentTerm, votedFor := saved.term, saved.votedFor;
      lastSnapshotIndex, lastSnapshotTerm, logs := saved.snapIndex, saved.snapTerm, saved.log;
      new;
      for i := 0 to peers
        invariant nextIndex == seq(i, _ => 0) && matchIndex == seq(i, _ => 0)
        invariant View().(nextIndex := [], matchIndex := []) ==
                  N.Boot(id, count, saved).(nextIndex := [], matchIndex := [], lastApplied := 0)
      {
        nextIndex, matchIndex := nextIndex + [0], matchIndex + [0];
      }
      if lastSnapshotIndex > 0 {
        lastApplied := lastSnapshotIndex;
      }
    }

    method Persist()
      modifies this`disk
      ensures disk == View().Saved()
    {
      disk := Disk(currentTerm, votedFor, lastSnapshotIndex, lastSnapshotTerm, logs);
    }

    /** Read off the last entry, as the source does; the log being contiguous makes it `View().Last()`. */
    method LastLogIndexAndTerm() returns (index: nat, term: nat)
      requires View().Valid()
      ensures index == View().Last() && term == View().LastTerm()
    {
      if logs == [] {
        return lastSnapshotIndex, lastSnapshotTerm;
      }
      return logs[|logs| - 1].logIndex, logs[|logs| - 1].logTerm;
    }

    method DoElection() returns (sent: map<nat, VoteArgs>)
      requires Running()
      modifies this
      ensures Running() && View() == N.DoElection(old(View()))
      ensures old(status) == Leader ==> sent == map[]
      ensures old(status) != Leader ==>
        && sent.Keys == N.Others(View())
        && forall p | p in sent :: sent[p] == N.VoteArgsOf(View())
    {
      sent := map[];
      if status == Leader {
        return;
      }
      status, currentTerm, votedFor := Candidate, currentTerm + 1, raftId;
      Persist();
      for i := 0 to peers
        invariant Running() && View() == N.DoElection(old(View()))
        invariant sent.Keys == set p | 0 <= p < i && N.IsPeer(View(), p)
        invariant forall p | p in sent :: sent[p] == N.VoteArgsOf(View())
      {
        if i != raftId {
          var lastIndex, lastTerm := LastLogIndexAndTerm();
          sent := sent[i := VoteArgs(currentTerm, raftId, lastIndex, lastTerm)];
        }
      }
    }

    method RequestVoteImpl(args: VoteArgs) returns (reply: VoteReply)
      requires Running()
      modifies this
      ensures Running() && (View(), reply) == N.RequestVote(old(View()), args)
    {
      if args.term < currentTerm {
        Persist();
        return VoteReply(currentTerm, false, Expire);
      }
      if args.term > currentTerm {
        status, currentTerm, votedFor := Follower, args.term, NOBODY;
      }
      var lastIndex, lastTerm := LastLogIndexAndTerm();
      if !(args.lastTerm > lastTerm || (args.lastTerm == lastTerm && args.lastIndex >= lastIndex)) {
        reply := VoteReply(currentTerm, false, Voted);
      } else if votedFor != NOBODY && votedFor != args.candidate {
        reply := VoteReply(currentTerm, false, Voted);
      } else {
        votedFor := args.candidate;
        reply := VoteReply(currentTerm, true, Normal);
      }
      Persist();
    }

    method VoteReplied(votes: nat, reply: VoteReply) returns (votes': nat)
      requires Running()
      modifies this
      ensures Became(N.VoteReplied(old(View()), votes, reply).0) && (halted.None? ==> Running())
      ensures votes' == N.VoteReplied(old(View()), votes, reply).1
    {
      votes' := votes;
      if reply.term > currentTerm {
        status, currentTerm, votedFor := Follower, reply.term, NOBODY;
        Persist();
        return;
      } else if reply.term < currentTerm {
        return;
      }
      if !reply.granted {
        return;
      }
      votes' := votes + 1;
      if votes' >= peers / 2 + 1 {
        votes' := 0;
        if status == Leader {
          halted := Some(LeaderTwice);
          return;
        }
        status := Leader;
        var lastIndex, _ := LastLogIndexAndTerm();
        var before := View();
        for i := 0 to |nextIndex|
          invariant |nextIndex| == |matchIndex| == |before.nextIndex| && lastIndex == before.Last()
          invariant forall j | 0 <= j < i :: nextIndex[j] == lastIndex + 1 && matchIndex[j] == 0
          invariant View() == before.(nextIndex := nextIndex, matchIndex := matchIndex)
        {
          nextIndex, matchIndex := nextIndex[i := lastIndex + 1], matchIndex[i := 0];
        }
      }
    }

    /** The index handed out is one past everything the log had, so it is never handed out again. */
    method Start(command: Op) returns (index: int, term: int, isLeader: bool)
      requires Running()
      modifies this
      ensures Running() && View() == N.Start(old(View()), command)
      ensures isLeader == (old(status) == Leader)
      ensures isLeader ==> index == old(View()).Last() + 1 == View().Last() && term == currentTerm
      ensures !isLeader ==> index == term == -1
    {
      if status != Leader {
        return -1, -1, false;
      }
      var lastIndex, lastTerm := LastLogIndexAndTerm();
      logs := logs + [LogEntry(command, currentTerm, lastIndex + 1)];
      lastIndex, lastTerm := LastLogIndexAndTerm();
      Persist();
      return lastIndex, currentTerm, true;
    }

    /** One heartbeat: a request per peer, or a snapshot thread where the peer is behind the log. When an
        assertion stops it, the threads for the peers before have been started. */
    method DoHeartBeat() returns (sent: map<nat, AppendArgs>, snapshotTo: set<nat>)
      requires Running()
      modifies this`halted
      ensures status == Leader ==> halted == N.FirstBeatFault(old(View()), 0)
      ensures status != Leader ==> halted.None? && sent == map[] && snapshotTo == {}
      ensures status == Leader ==>
        var n := old(View());
        && snapshotTo == (set p | p in N.Others(n) && N.Served(n, p) && N.NeedsSnapshot(n, p))
        && sent.Keys == (set p | p in N.Others(n) && N.Served(n, p) && !N.NeedsSnapshot(n, p))
        && forall p | p in sent ::
             n.nextIndex[p] <= n.Last() + 1 && sent[p] == N.AppendArgsFor(n, p) && sent[p].End() == n.Last()
    {
      hide N.AppendArgsFor, AppendArgs.End, N.Node.TermAt;
      sent, snapshotTo := map[], {};
      if status != Leader {
        return;
      }
      ghost var n := View();
      for i := 0 to peers
        invariant View() == n
        invariant N.FirstBeatFault(n, 0) == N.FirstBeatFault(n, i)
        invariant forall q | 0 <= q < i && q != n.id :: N.BeatFault(n, q).None?
        invariant snapshotTo == set p | 0 <= p < i && N.IsPeer(n, p) && N.NeedsSnapshot(n, p)
        invariant sent.Keys == set p | 0 <= p < i && N.IsPeer(n, p) && !N.NeedsSnapshot(n, p)
        invariant forall p | p in sent ::
          nextIndex[p] <= n.Last() + 1 && sent[p] == N.AppendArgsFor(n, p) && sent[p].End() == n.Last()
      {
        if i == raftId {
          continue;
        }
        if nextIndex[i] < 1 {
          halted := Some(NextIndexPositive);
          return;
        }
        if nextIndex[i] <= lastSnapshotIndex {
          snapshotTo := snapshotTo + {i};
          continue;
        }
        var lastIndex, _ := LastLogIndexAndTerm();
        if nextIndex[i] - 1 > lastIndex {
          halted := Some(PrevIndexInLog);
          return;
        }
        var args := RequestFor(i);
        sent := sent[i := args];
      }
    }

    /** The request to peer p: everything from its next index to the end of the log. */
    method RequestFor(p: nat) returns (args: AppendArgs)
      requires Running() && p < peers && lastSnapshotIndex < nextIndex[p] <= View().Last() + 1
      ensures args == N.AppendArgsFor(View(), p) && args.End() == View().Last()
    {
      var prev, prevTerm := PrevLogInfo(p);
      var entries := if prev != lastSnapshotIndex then logs[prev - lastSnapshotIndex..] else logs;
      args := AppendArgs(currentTerm, raftId, prev, prevTerm, entries, commitIndex);
      assert prev + |entries| == View().Last();
    }

    method PrevLogInfo(p: nat) returns (index: nat, term: nat)
      requires Running() && p < peers && lastSnapshotIndex < nextIndex[p] <= View().Last() + 1
      ensures index == nextIndex[p] - 1 && term == View().TermAt(index)
    {
      if nextIndex[p] == lastSnapshotIndex + 1 {
        return lastSnapshotIndex, lastSnapshotTerm;
      }
      index := nextIndex[p] - 1;
      term := logs[index - lastSnapshotIndex - 1].logTerm;
    }

    method AppendEntriesImpl(args: AppendArgs) returns (reply: AppendReply)
      requires Running() && Contiguous(args.entries, args.prevIndex)
      modifies this
      ensures Became(N.AppendEntries(old(View()), args).0) && (halted.None? ==> Running())
      ensures halted.None? ==> reply == N.AppendEntries(old(View()), args).1
    {
      if args.term < currentTerm {
        return AppendReply(currentTerm, false, NO_UPDATE);
      }
      if args.term > currentTerm {
        status, currentTerm, votedFor := Follower, args.term, NOBODY;
      }
      status := Follower;
      assert View() == N.Followed(old(View()), args);
      hide N.Replicate, N.Hint;
      if N.InWindow(View(), args) && args.prevTerm == View().TermAt(args.prevIndex) {
        reply := Replicate(args);
      } else {
        var update := Hint(args.prevIndex);
        Persist();
        reply := AppendReply(currentTerm, false, update);
      }
    }

    /** Past the end: try one past my last entry. Inside my snapshot: one past it. Else back off. */
    method Hint(prev: nat) returns (update: nat)
      requires Running()
      ensures update == N.Hint(View(), prev)
    {
      var lastIndex, _ := LastLogIndexAndTerm();
      if prev > lastIndex {
        update := lastIndex + 1;
      } else if prev < lastSnapshotIndex {
        update := lastSnapshotIndex + 1;
      } else {
        update := SuggestNext(prev);
      }
    }

    method Replicate(args: AppendArgs) returns (reply: AppendReply)
      requires Running() && Contiguous(args.entries, args.prevIndex) && N.InWindow(View(), args)
      modifies this
      ensures Became(N.Replicate(old(View()), args).0) && (halted.None? ==> Running())
      ensures halted.None? ==> reply == N.Replicate(old(View()), args).1
    {
      var ok := LayOver(args);
      if !ok {
        return AppendReply(currentTerm, false, NO_UPDATE);
      }
      I.AbsorbKeeps(old(View()), args);
      var lastIndex := lastSnapshotIndex + |logs|;
      assert args.prevIndex + |args.entries| <= lastIndex;
      if args.leaderCommit > commitIndex {
        commitIndex := Min(args.leaderCommit, lastIndex);
      }
      assert lastIndex >= commitIndex;
      reply := AppendReply(currentTerm, true, 0);
      Persist();
    }

    /** The loop over the sent entries: push past the end, overwrite on another term. */
    method LayOver(args: AppendArgs) returns (ok: bool)
      requires Running() && Contiguous(args.entries, args.prevIndex) && N.InWindow(View(), args)
      modifies this`logs, this`halted
      ensures ok == !N.Clashes(old(logs), args.prevIndex - lastSnapshotIndex, args.entries)
      ensures ok ==>
        && halted.None?
        && logs == N.Splice(old(logs), args.prevIndex - lastSnapshotIndex, args.entries)
        && Contiguous(logs, lastSnapshotIndex)
      ensures !ok ==> halted == Some(SameTermOtherCommand)
    {
      var at := args.prevIndex - lastSnapshotIndex;
      ghost var was := logs;
      for i := 0 to |args.entries|
        invariant logs == N.Splice(was, at, args.entries[..i])
        invariant Contiguous(logs, lastSnapshotIndex) && halted.None?
        invariant !N.Clashes(was, at, args.entries[..i])
      {
        hide N.Splice, N.Clashes, Contiguous;
        var entry := args.entries[i];
        LayOne(was, at, args.entries, i);
        LayOneContiguous(was, lastSnapshotIndex, at, args.entries, i);
        if entry.logIndex > lastSnapshotIndex + |logs| {
          logs := logs + [entry];
        } else {
          var k := entry.logIndex - lastSnapshotIndex - 1;
          assert k == at + i;
          if logs[k].logTerm == entry.logTerm && logs[k].command != entry.command {
            halted := Some(SameTermOtherCommand);
            return false;
          }
          if logs[k].logTerm != entry.logTerm {
            logs := logs[k := entry];
          }
        }
      }
      assert args.entries[..|args.entries|] == args.entries;
      return true;
    }

    /** Walk back to the last entry of another term, as the fast back-off of the paper does. */
    method SuggestNext(prev: nat) returns (update: nat)
      requires Running() && lastSnapshotIndex <= prev <= View().Last()
      ensures update == N.BackOff(View(), prev, View().TermAt(prev), prev)
    {
      var i := prev as int;
      while i >= lastSnapshotIndex
        invariant lastSnapshotIndex - 1 <= i <= prev
        invariant N.BackOff(View(), prev, View().TermAt(prev), prev) == N.BackOff(View(), i, View().TermAt(prev), prev)
      {
        if View().TermAt(i) != View().TermAt(prev) {
          return i + 1;
        }
        i := i - 1;
      }
      return prev;
    }

    method AppendReplied(p: nat, args: AppendArgs, count: nat, reply: AppendReply) returns (count': nat)
      requires Running() && p < peers
      modifies this
      ensures Became(N.AppendReplied(old(View()), p, args, count, reply).0) && (halted.None? ==> Running())
      ensures count' == N.AppendReplied(old(View()), p, args, count, reply).1
    {
      count' := count;
      if reply.term > currentTerm {
        status, currentTerm, votedFor := Follower, reply.term, NOBODY;
        return;
      } else if reply.term < currentTerm {
        return;
      }
      if status != Leader {
        return;
      }
      if !reply.success {
        if reply.updateNext != NO_UPDATE {
          nextIndex := nextIndex[p := reply.updateNext];
        }
        return;
      }
      count' := count + 1;
      matchIndex := matchIndex[p := Max(matchIndex[p], args.prevIndex + |args.entries|)];
      nextIndex := nextIndex[p := matchIndex[p] + 1];
      var lastIndex := lastSnapshotIndex + |logs|;
      if nextIndex[p] > lastIndex + 1 {
        halted := Some(NextIndexInLog);
        return;
      }
      if count' >= peers / 2 + 1 {
        count' := 0;
        if |args.entries| > 0 && args.entries[|args.entries| - 1].logTerm == currentTerm {
          commitIndex := Max(commitIndex, args.prevIndex + |args.entries|);
        }
        assert commitIndex <= lastIndex;
      }
    }

    method GetApplyLogs() returns (msgs: seq<ApplyMsg>)
      requires Running()
      modifies this`lastApplied
      ensures Running() && (View(), msgs) == N.ApplyLogs(old(View()))
    {
      msgs := [];
      ghost var n := View();
      while lastApplied < commitIndex
        invariant n.lastApplied <= lastApplied && (lastApplied <= commitIndex || lastApplied == n.lastApplied)
        invariant View() == n.(lastApplied := lastApplied)
        invariant msgs == N.Messages(n, n.lastApplied, lastApplied)
      {
        lastApplied := lastApplied + 1;
        assert logs[lastApplied - lastSnapshotIndex - 1].logIndex == lastApplied;
        msgs := msgs + [ApplyMsg(lastApplied, logs[lastApplied - lastSnapshotIndex - 1].command)];
      }
      assert View() == N.ApplyLogs(n).0;
      assert msgs == N.ApplyLogs(n).1;
    }

    method Snapshot(index: int)
      requires Running()
      modifies this
      ensures Running() && View() == N.Snapshot(old(View()), index)
      ensures View().Last() == old(View().Last())
    {
      if lastSnapshotIndex >= index || index > commitIndex {
        return;
      }
      var newTerm := View().TermAt(index);
      logs := logs[index - lastSnapshotIndex - 1 + 1..];
      lastSnapshotIndex, lastSnapshotTerm := index, newTerm;
      commitIndex := Max(commitIndex, index);
      lastApplied := Max(lastApplied, index);
      Persist();
      var lastIndex, _ := LastLogIndexAndTerm();
      assert |logs| + lastSnapshotIndex == lastIndex;
    }

    method InstallSnapshotImpl(args: InstallArgs) returns (replyTerm: nat)
      requires Running()
      modifies this
      ensures Running() && (View(), replyTerm) == N.InstallSnapshot(old(View()), args)
    {
      replyTerm := 0;
      if args.term < currentTerm {
        return currentTerm;
      }
      if args.term > currentTerm {
        status, currentTerm, votedFor := Follower, args.term, NOBODY;
        Persist();
      }
      status := Follower;
      if args.snapIndex <= lastSnapshotIndex {
        return;
      }
      Rebase(args);
      replyTerm := currentTerm;
    }

    method Rebase(args: InstallArgs)
      requires Running() && lastSnapshotIndex < args.snapIndex
      modifies this
      ensures Running() && View() == N.Rebase(old(View()), args)
    {
      var lastIndex, _ := LastLogIndexAndTerm();
      I.RebaseValid(View(), args);
      hide N.Node.Valid;
      if lastIndex > args.snapIndex {
        logs := logs[args.snapIndex - lastSnapshotIndex - 1 + 1..];
      } else {
        logs := [];
      }
      commitIndex := Max(commitIndex, args.snapIndex);
      lastApplied := Max(lastApplied, args.snapIndex);
      lastSnapshotIndex, lastSnapshotTerm := args.snapIndex, args.snapTerm;
      Persist();
    }

    method SnapshotReplied(p: nat, args: InstallArgs, replyTerm: nat)
      requires Running() && p < peers && args.snapIndex <= View().Last()
      modifies this
      ensures Running() && View() == N.SnapshotReplied(old(View()), p, args, replyTerm)
    {
      if status != Leader || currentTerm != args.term {
        return;
      }
      if replyTerm > currentTerm {
        status, currentTerm, votedFor := Follower, replyTerm, NOBODY;
        Persist();
        return;
      }
      matchIndex := matchIndex[p := args.snapIndex];
      nextIndex := nextIndex[p := matchIndex[p] + 1];
    }
  }
}
