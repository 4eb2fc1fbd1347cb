/** Why the assertion on the previous index is excluded only for clean runs and for runs without snapshots.
    In the run below a request that is not clean lowers the last term of node 0, which then votes for node 3
    although it has committed, applied and snapshotted past the end of node 3's log. Node 3 is told to go on
    from behind that snapshot, beyond its own log, and its next heartbeat dies of the assertion
    (raft.cpp:826-828). */
module OvershootCounterexample {
  import opened RaftTypes
  import opened RaftNode
  import opened RaftCluster
  import opened ConcreteSteps
  import CleanRuns
  import CleanProgress

  const COMMAND := Op("Put", "k", "v", "c", 1)

  const LONG := [LogEntry(COMMAND, 1, 1), LogEntry(COMMAND, 1, 2), LogEntry(COMMAND, 1, 3)]
  const OWN := [LogEntry(COMMAND, 2, 1)]
  const COMMON := [LogEntry(COMMAND, 3, 1), LogEntry(COMMAND, 3, 2)]

  const KEPT := COMMON + [LONG[2]]
  const TAIL := [LONG[2]]

  const RUN: seq<Event> := [
    // node 0 leads term 1 and keeps three commands to itself
    Elect(0), DeliverVote(Vote(0, 1, 1)), VoteAnswered(Vote(0, 1, 1)),
    DeliverVote(Vote(0, 1, 2)), VoteAnswered(Vote(0, 1, 2)),
    ClientStart(0, COMMAND), ClientStart(0, COMMAND), ClientStart(0, COMMAND),
    // node 3 leads term 2 and keeps one
    Elect(3), Elect(3), DeliverVote(Vote(3, 2, 2)), VoteAnswered(Vote(3, 2, 2)),
    DeliverVote(Vote(3, 2, 4)), VoteAnswered(Vote(3, 2, 4)), ClientStart(3, COMMAND),
    // node 1 leads term 3, commits two with nodes 0 and 2, and tells node 0, which takes a snapshot
    Elect(1), Elect(1), DeliverVote(Vote(1, 3, 2)), VoteAnswered(Vote(1, 3, 2)),
    DeliverVote(Vote(1, 3, 4)), VoteAnswered(Vote(1, 3, 4)), ClientStart(1, COMMAND), ClientStart(1, COMMAND),
    HeartBeat(1), DeliverAppend(AppendKey(0, 0)), AppendAnswered(AppendKey(0, 0)),
    DeliverAppend(AppendKey(0, 2)), AppendAnswered(AppendKey(0, 2)),
    HeartBeat(1), DeliverAppend(AppendKey(1, 0)), Apply(0), TakeSnapshot(0, 2),
    // node 3 restarts, leads term 4 with the vote of node 0, and follows its hint
    Crash(3), Elect(3), Elect(3), DeliverVote(Vote(3, 4, 0)), VoteAnswered(Vote(3, 4, 0)),
    DeliverVote(Vote(3, 4, 4)), VoteAnswered(Vote(3, 4, 4)),
    HeartBeat(3), DeliverAppend(AppendKey(2, 0)), AppendAnswered(AppendKey(2, 0)), HeartBeat(3)]

  /** Node 0 behind its snapshot of the first two indices. */
  function Cut(term: nat, votedFor: int): Node
  {
    Node(0, 5, term, votedFor, Follower, TAIL, 2, 3, 2, 2, Fives(1), ZEROS, Disk(term, votedFor, 2, 3, TAIL), None)
  }

  // ---------- the run ----------

  lemma FirstCampaign()
    ensures |RUN| == 43 && Campaigning(RUN, 0, 0, 1, 1, 2)
  {
    hide At, Step, Wf;
    assert |RUN| == 43 && RUN[0] == Elect(0);
    assert RUN[1] == DeliverVote(Vote(0, 1, 1)) && RUN[2] == VoteAnswered(Vote(0, 1, 1));
    assert RUN[3] == DeliverVote(Vote(0, 1, 2)) && RUN[4] == VoteAnswered(Vote(0, 1, 2));
  }

  lemma SecondCampaign()
    ensures |RUN| == 43 && Campaigning(RUN, 9, 3, 2, 2, 4)
  {
    hide At, Step, Wf;
    assert |RUN| == 43 && RUN[9] == Elect(3);
    assert RUN[10] == DeliverVote(Vote(3, 2, 2)) && RUN[11] == VoteAnswered(Vote(3, 2, 2));
    assert RUN[12] == DeliverVote(Vote(3, 2, 4)) && RUN[13] == VoteAnswered(Vote(3, 2, 4));
  }

  lemma ThirdCampaign()
    ensures |RUN| == 43 && Campaigning(RUN, 16, 1, 3, 2, 4)
  {
    hide At, Step, Wf;
    assert |RUN| == 43 && RUN[16] == Elect(1);
    assert RUN[17] == DeliverVote(Vote(1, 3, 2)) && RUN[18] == VoteAnswered(Vote(1, 3, 2));
    assert RUN[19] == DeliverVote(Vote(1, 3, 4)) && RUN[20] == VoteAnswered(Vote(1, 3, 4));
  }

  lemma FourthCampaign()
    ensures |RUN| == 43 && Campaigning(RUN, 34, 3, 4, 0, 4)
  {
    hide At, Step, Wf;
    assert |RUN| == 43 && RUN[34] == Elect(3);
    assert RUN[35] == DeliverVote(Vote(3, 4, 0)) && RUN[36] == VoteAnswered(Vote(3, 4, 0));
    assert RUN[37] == DeliverVote(Vote(3, 4, 4)) && RUN[38] == VoteAnswered(Vote(3, 4, 4));
  }

  lemma FirstLeader()
    ensures var c := At(5, RUN, 5);
      && Tidy(c) && |c.re.beats| == 0
      && c.nodes == [Plainly(0, 1, 0, Leader, [], 0, 0, Fives(1), ZEROS), Calm(1, 1, 0, []), Calm(2, 1, 0, []),
                     Calm(3, 0, -1, []), Calm(4, 0, -1, [])]
  {
    hide At, Step, Wf, Tidy;
    FirstCampaign();
    Begin(RUN);
    hide RUN, Campaigning;
    var c := At(5, RUN, 0);
    CampaignAt(RUN, 0, 0, 1, 2);
    Crowning(c.nodes[0]);
  }

  lemma LongLog()
    ensures var c := At(5, RUN, 8);
      && Tidy(c) && |c.re.beats| == 0
      && c.nodes == [Plainly(0, 1, 0, Leader, LONG, 0, 0, Fives(1), ZEROS), Calm(1, 1, 0, []), Calm(2, 1, 0, []),
                     Calm(3, 0, -1, []), Calm(4, 0, -1, [])]
  {
    hide At, Step, Wf, Tidy;
    assert |RUN| == 43 && RUN[5] == RUN[6] == RUN[7] == ClientStart(0, COMMAND);
    AtNext(5, RUN, 5);
    AtNext(5, RUN, 6);
    AtNext(5, RUN, 7);
    hide RUN;
    FirstLeader();
    StartFact(At(5, RUN, 5), 0, COMMAND);
    StartFact(At(5, RUN, 6), 0, COMMAND);
    StartFact(At(5, RUN, 7), 0, COMMAND);
    assert At(5, RUN, 8).nodes[0].log == LONG;
  }

  lemma FirstTry()
    ensures var c := At(5, RUN, 9);
      && Tidy(c) && |c.re.beats| == 0
      && c.nodes == [Plainly(0, 1, 0, Leader, LONG, 0, 0, Fives(1), ZEROS), Calm(1, 1, 0, []), Calm(2, 1, 0, []),
                     Plainly(3, 1, 3, Candidate, [], 0, 0, ZEROS, ZEROS), Calm(4, 0, -1, [])]
  {
    hide At, Step, Wf, Tidy;
    assert |RUN| == 43 && RUN[8] == Elect(3);
    AtNext(5, RUN, 8);
    hide RUN;
    LongLog();
    ElectFact(At(5, RUN, 8), 3);
  }

  lemma SecondElection()
    ensures var c := At(5, RUN, 14);
      && Tidy(c) && |c.re.beats| == 0
      && c.nodes == [Plainly(0, 1, 0, Leader, LONG, 0, 0, Fives(1), ZEROS), Calm(1, 1, 0, []), Calm(2, 2, 3, []),
                     Plainly(3, 2, 3, Leader, [], 0, 0, Fives(1), ZEROS), Calm(4, 2, 3, [])]
  {
    hide At, Step, Wf, Tidy, LONG;
    SecondCampaign();
    hide RUN, Campaigning;
    FirstTry();
    var c := At(5, RUN, 9);
    Crowning(c.nodes[3]);
    CampaignAt(RUN, 9, 3, 2, 4);
  }

  lemma SecondLeader()
    ensures var c := At(5, RUN, 15);
      && Tidy(c) && |c.re.beats| == 0
      && c.nodes == [Plainly(0, 1, 0, Leader, LONG, 0, 0, Fives(1), ZEROS), Calm(1, 1, 0, []), Calm(2, 2, 3, []),
                     Plainly(3, 2, 3, Leader, OWN, 0, 0, Fives(1), ZEROS), Calm(4, 2, 3, [])]
  {
    hide At, Step, Wf, Tidy, LONG;
    assert |RUN| == 43 && RUN[14] == ClientStart(3, COMMAND);
    AtNext(5, RUN, 14);
    hide RUN;
    SecondElection();
    StartFact(At(5, RUN, 14), 3, COMMAND);
    assert At(5, RUN, 15).nodes[3].log == OWN;
  }

  lemma SecondTry()
    ensures var c := At(5, RUN, 16);
      && Tidy(c) && |c.re.beats| == 0
      && c.nodes == [Plainly(0, 1, 0, Leader, LONG, 0, 0, Fives(1), ZEROS),
                     Plainly(1, 2, 1, Candidate, [], 0, 0, ZEROS, ZEROS), Calm(2, 2, 3, []),
                     Plainly(3, 2, 3, Leader, OWN, 0, 0, Fives(1), ZEROS), Calm(4, 2, 3, [])]
  {
    hide At, Step, Wf, Tidy, LONG, OWN;
    assert |RUN| == 43 && RUN[15] == Elect(1);
    AtNext(5, RUN, 15);
    hide RUN;
    SecondLeader();
    ElectFact(At(5, RUN, 15), 1);
  }

  lemma ThirdElection()
    ensures var c := At(5, RUN, 21);
      && Tidy(c) && |c.re.beats| == 0
      && c.nodes == [Plainly(0, 1, 0, Leader, LONG, 0, 0, Fives(1), ZEROS),
                     Plainly(1, 3, 1, Leader, [], 0, 0, Fives(1), ZEROS), Calm(2, 3, 1, []),
                     Plainly(3, 2, 3, Leader, OWN, 0, 0, Fives(1), ZEROS), Calm(4, 3, 1, [])]
  {
    hide At, Step, Wf, Tidy, LONG, OWN;
    ThirdCampaign();
    hide RUN, Campaigning;
    SecondTry();
    var c := At(5, RUN, 16);
    Crowning(c.nodes[1]);
    CampaignAt(RUN, 16, 1, 2, 4);
  }

  lemma ThirdLeader()
    ensures var c := At(5, RUN, 23);
      && Tidy(c) && |c.re.beats| == 0
      && c.nodes == [Plainly(0, 1, 0, Leader, LONG, 0, 0, Fives(1), ZEROS),
                     Plainly(1, 3, 1, Leader, COMMON, 0, 0, Fives(1), ZEROS), Calm(2, 3, 1, []),
                     Plainly(3, 2, 3, Leader, OWN, 0, 0, Fives(1), ZEROS), Calm(4, 3, 1, [])]
  {
    hide At, Step, Wf, Tidy, LONG, OWN;
    assert |RUN| == 43 && RUN[21] == RUN[22] == ClientStart(1, COMMAND);
    AtNext(5, RUN, 21);
    AtNext(5, RUN, 22);
    hide RUN;
    ThirdElection();
    StartFact(At(5, RUN, 21), 1, COMMAND);
    StartFact(At(5, RUN, 22), 1, COMMAND);
    assert At(5, RUN, 23).nodes[1].log == COMMON;
  }

  lemma CommonSent()
    ensures var c, args := At(5, RUN, 24), AppendArgs(3, 1, 0, 0, COMMON, 0);
      && Tidy(c) && |c.re.beats| == 1
      && c.nodes == [Plainly(0, 1, 0, Leader, LONG, 0, 0, Fives(1), ZEROS),
                     Plainly(1, 3, 1, Leader, COMMON, 0, 0, Fives(1), ZEROS), Calm(2, 3, 1, []),
                     Plainly(3, 2, 3, Leader, OWN, 0, 0, Fives(1), ZEROS), Calm(4, 3, 1, [])]
      && var b := c.re.beats[0];
      && b.leader == 1 && 0 in b.sent && b.sent[0] == args && 2 in b.sent && b.sent[2] == args
      && 0 in c.re.counts && c.re.counts[0] == 1 && forall k | k in c.re.replies :: k.round != 0
  {
    hide At, Step, Wf, Tidy;
    assert |RUN| == 43 && RUN[23] == HeartBeat(1);
    AtNext(5, RUN, 23);
    hide RUN;
    ThirdLeader();
    var c := At(5, RUN, 23);
    var n := c.nodes[1];
    assert n == Plainly(1, 3, 1, Leader, COMMON, 0, 0, Fives(1), ZEROS);
    assert COMMON[0..] == COMMON;
    assert Since(n, 0) == AppendArgs(3, 1, 0, 0, COMMON, 0) && Since(n, 2) == AppendArgs(3, 1, 0, 0, COMMON, 0);
    hide Since;
    Beating(c, 1, 0, 2);
  }

  /** Node 0 takes the two entries and keeps its third. */
  lemma TailKept()
    ensures var c := At(5, RUN, 25);
      && Tidy(c) && |c.re.beats| == 1
      && c.nodes == [Plainly(0, 3, -1, Follower, KEPT, 0, 0, Fives(1), ZEROS),
                     Plainly(1, 3, 1, Leader, COMMON, 0, 0, Fives(1), ZEROS), Calm(2, 3, 1, []),
                     Plainly(3, 2, 3, Leader, OWN, 0, 0, Fives(1), ZEROS), Calm(4, 3, 1, [])]
      && var b, args := c.re.beats[0], AppendArgs(3, 1, 0, 0, COMMON, 0);
      && b.leader == 1 && 0 in b.sent && b.sent[0] == args && 2 in b.sent && b.sent[2] == args
      && 0 in c.re.counts && c.re.counts[0] == 1 && AppendKey(0, 2) !in c.re.replies
      && AppendKey(0, 0) in c.re.replies && c.re.replies[AppendKey(0, 0)] == AppendReply(3, true, 0)
      && AppendKey(0, 0) !in c.re.closed
  {
    hide At, Step, Wf, AppendEntries;
    assert |RUN| == 43 && RUN[24] == DeliverAppend(AppendKey(0, 0));
    AtNext(5, RUN, 24);
    hide RUN;
    CommonSent();
    MixedUp(AppendArgs(3, 1, 0, 0, COMMON, 0));
    hide COMMON, KEPT, LONG, OWN;
    DeliverFact(At(5, RUN, 24), AppendKey(0, 0));
  }

  lemma TailCounted()
    ensures var c := At(5, RUN, 26);
      && Tidy(c) && |c.re.beats| == 1
      && c.nodes == [Plainly(0, 3, -1, Follower, KEPT, 0, 0, Fives(1), ZEROS),
                     Plainly(1, 3, 1, Leader, COMMON, 0, 0, [3, 1, 1, 1, 1], [2, 0, 0, 0, 0]), Calm(2, 3, 1, []),
                     Plainly(3, 2, 3, Leader, OWN, 0, 0, Fives(1), ZEROS), Calm(4, 3, 1, [])]
      && var b := c.re.beats[0];
      && b.leader == 1 && 2 in b.sent && b.sent[2] == AppendArgs(3, 1, 0, 0, COMMON, 0)
      && 0 in c.re.counts && c.re.counts[0] == 2 && AppendKey(0, 2) !in c.re.replies
  {
    hide At, Step, Wf, Tidy, AppendReplied;
    assert |RUN| == 43 && RUN[25] == AppendAnswered(AppendKey(0, 0));
    AtNext(5, RUN, 25);
    hide RUN;
    TailKept();
    MixedUp(AppendArgs(3, 1, 0, 0, COMMON, 0));
    hide COMMON, KEPT, LONG, OWN;
    AnswerFact(At(5, RUN, 25), AppendKey(0, 0));
  }

  lemma MixedUp(args: AppendArgs)
    requires args == AppendArgs(3, 1, 0, 0, COMMON, 0)
    ensures AppendEntries(Plainly(0, 1, 0, Leader, LONG, 0, 0, Fives(1), ZEROS), args) ==
      (Plainly(0, 3, -1, Follower, KEPT, 0, 0, Fives(1), ZEROS), AppendReply(3, true, 0))
    ensures AppendReplied(Plainly(1, 3, 1, Leader, COMMON, 0, 0, Fives(1), ZEROS), 0, args, 1,
        AppendReply(3, true, 0)) ==
      (Plainly(1, 3, 1, Leader, COMMON, 0, 0, [3, 1, 1, 1, 1], [2, 0, 0, 0, 0]), 2)
  {
    hide AppendEntries, AppendReplied;
    var n0 := Plainly(0, 1, 0, Leader, LONG, 0, 0, Fives(1), ZEROS);
    var n1 := Plainly(1, 3, 1, Leader, COMMON, 0, 0, Fives(1), ZEROS);
    Taking(n0, args, KEPT);
    Counted(n1, 0, args, 1);
    assert n1.nextIndex[0 := 3] == [3, 1, 1, 1, 1] && n1.matchIndex[0 := 2] == [2, 0, 0, 0, 0];
  }

  lemma CommonCommitted()
    ensures var c := At(5, RUN, 28);
      && Tidy(c) && |c.re.beats| == 1
      && c.nodes == [Plainly(0, 3, -1, Follower, KEPT, 0, 0, Fives(1), ZEROS),
                     Plainly(1, 3, 1, Leader, COMMON, 2, 0, [3, 1, 3, 1, 1], [2, 0, 2, 0, 0]), Calm(2, 3, 1, COMMON),
                     Plainly(3, 2, 3, Leader, OWN, 0, 0, Fives(1), ZEROS), Calm(4, 3, 1, [])]
  {
    hide At, Step, Wf, Tidy, AppendEntries, AppendReplied;
    assert |RUN| == 43 && RUN[26] == DeliverAppend(AppendKey(0, 2)) && RUN[27] == AppendAnswered(AppendKey(0, 2));
    AtNext(5, RUN, 26);
    AtNext(5, RUN, 27);
    hide RUN;
    TailCounted();
    MajorityReached(AppendArgs(3, 1, 0, 0, COMMON, 0));
    hide COMMON, KEPT, LONG;
    Exchange(At(5, RUN, 26), 0, 2);
  }

  lemma MajorityReached(args: AppendArgs)
    requires args == AppendArgs(3, 1, 0, 0, COMMON, 0)
    ensures AppendEntries(Calm(2, 3, 1, []), args) == (Calm(2, 3, 1, COMMON), AppendReply(3, true, 0))
    ensures AppendReplied(Plainly(1, 3, 1, Leader, COMMON, 0, 0, [3, 1, 1, 1, 1], [2, 0, 0, 0, 0]), 2, args, 2,
                          AppendReply(3, true, 0)) ==
      (Plainly(1, 3, 1, Leader, COMMON, 2, 0, [3, 1, 3, 1, 1], [2, 0, 2, 0, 0]), 0)
  {
    hide AppendEntries, AppendReplied;
    var n2, n1 := Calm(2, 3, 1, []), Plainly(1, 3, 1, Leader, COMMON, 0, 0, [3, 1, 1, 1, 1], [2, 0, 0, 0, 0]);
    Taking(n2, args, COMMON);
    Counted(n1, 2, args, 2);
    assert n1.nextIndex[2 := 3] == [3, 1, 3, 1, 1] && n1.matchIndex[2 := 2] == [2, 0, 2, 0, 0];
  }

  lemma CommitSent()
    ensures var c := At(5, RUN, 29);
      && Tidy(c) && |c.re.beats| == 2
      && c.nodes == [Plainly(0, 3, -1, Follower, KEPT, 0, 0, Fives(1), ZEROS),
                     Plainly(1, 3, 1, Leader, COMMON, 2, 0, [3, 1, 3, 1, 1], [2, 0, 2, 0, 0]), Calm(2, 3, 1, COMMON),
                     Plainly(3, 2, 3, Leader, OWN, 0, 0, Fives(1), ZEROS), Calm(4, 3, 1, [])]
      && 0 in c.re.beats[1].sent && c.re.beats[1].sent[0] == AppendArgs(3, 1, 2, 3, [], 2)
      && AppendKey(1, 0) !in c.re.replies
  {
    hide At, Step, Wf, Tidy;
    assert |RUN| == 43 && RUN[28] == HeartBeat(1);
    AtNext(5, RUN, 28);
    hide RUN;
    CommonCommitted();
    var c := At(5, RUN, 28);
    var n := c.nodes[1];
    assert n == Plainly(1, 3, 1, Leader, COMMON, 2, 0, [3, 1, 3, 1, 1], [2, 0, 2, 0, 0]);
    assert Since(n, 0) == AppendArgs(3, 1, 2, 3, [], 2);
    hide Since;
    Beating(c, 1, 0, 2);
  }

  /** The next heartbeat lets node 0 commit what it shares with node 1. */
  lemma CommitKnown()
    ensures var c := At(5, RUN, 30);
      && Tidy(c) && |c.re.beats| == 2
      && c.nodes == [Plainly(0, 3, -1, Follower, KEPT, 2, 0, Fives(1), ZEROS),
                     Plainly(1, 3, 1, Leader, COMMON, 2, 0, [3, 1, 3, 1, 1], [2, 0, 2, 0, 0]), Calm(2, 3, 1, COMMON),
                     Plainly(3, 2, 3, Leader, OWN, 0, 0, Fives(1), ZEROS), Calm(4, 3, 1, [])]
  {
    hide At, Step, Wf, Tidy, AppendEntries;
    assert |RUN| == 43 && RUN[29] == DeliverAppend(AppendKey(1, 0));
    AtNext(5, RUN, 29);
    hide RUN;
    CommitSent();
    Following(AppendArgs(3, 1, 2, 3, [], 2));
    hide COMMON, KEPT, LONG, OWN;
    DeliverFact(At(5, RUN, 29), AppendKey(1, 0));
  }

  lemma Following(args: AppendArgs)
    requires args == AppendArgs(3, 1, 2, 3, [], 2)
    ensures AppendEntries(Plainly(0, 3, -1, Follower, KEPT, 0, 0, Fives(1), ZEROS), args) ==
      (Plainly(0, 3, -1, Follower, KEPT, 2, 0, Fives(1), ZEROS), AppendReply(3, true, 0))
  {
    assert KEPT[..2] + [] + KEPT[2..] == KEPT;
  }

  /** Node 0 applies them, so its server may take a snapshot. */
  lemma CommonApplied()
    ensures var c := At(5, RUN, 31);
      && Tidy(c) && |c.re.beats| == 2
      && c.nodes == [Plainly(0, 3, -1, Follower, KEPT, 2, 2, Fives(1), ZEROS),
                     Plainly(1, 3, 1, Leader, COMMON, 2, 0, [3, 1, 3, 1, 1], [2, 0, 2, 0, 0]), Calm(2, 3, 1, COMMON),
                     Plainly(3, 2, 3, Leader, OWN, 0, 0, Fives(1), ZEROS), Calm(4, 3, 1, [])]
  {
    hide At, Step, Wf, Tidy, ApplyLogs;
    assert |RUN| == 43 && RUN[30] == Apply(0);
    AtNext(5, RUN, 30);
    hide RUN;
    CommitKnown();
    ValidAt(At(5, RUN, 30), 0);
    AppliedKept();
    hide COMMON, KEPT, LONG, OWN;
    ApplyFact(At(5, RUN, 30), 0);
  }

  lemma AppliedKept()
    requires Plainly(0, 3, -1, Follower, KEPT, 2, 0, Fives(1), ZEROS).Valid()
    ensures ApplyLogs(Plainly(0, 3, -1, Follower, KEPT, 2, 0, Fives(1), ZEROS)).0 ==
      Plainly(0, 3, -1, Follower, KEPT, 2, 2, Fives(1), ZEROS)
  {
  }

  lemma SnapshotTaken()
    ensures var c := At(5, RUN, 32);
      && Tidy(c) && |c.re.beats| == 2
      && c.nodes == [Cut(3, -1),
                     Plainly(1, 3, 1, Leader, COMMON, 2, 0, [3, 1, 3, 1, 1], [2, 0, 2, 0, 0]), Calm(2, 3, 1, COMMON),
                     Plainly(3, 2, 3, Leader, OWN, 0, 0, Fives(1), ZEROS), Calm(4, 3, 1, [])]
  {
    hide At, Step, Wf, Tidy;
    assert |RUN| == 43 && RUN[31] == TakeSnapshot(0, 2);
    AtNext(5, RUN, 31);
    hide RUN;
    CommonApplied();
    assert KEPT[2..] == TAIL;
    assert Snapshot(Plainly(0, 3, -1, Follower, KEPT, 2, 2, Fives(1), ZEROS), 2) == Cut(3, -1);
    SnapshotFact(At(5, RUN, 31), 0, 2);
  }

  lemma Restarted()
    ensures var c := At(5, RUN, 34);
      && Tidy(c) && |c.re.beats| == 2
      && c.nodes == [Cut(3, -1),
                     Plainly(1, 3, 1, Leader, COMMON, 2, 0, [3, 1, 3, 1, 1], [2, 0, 2, 0, 0]), Calm(2, 3, 1, COMMON),
                     Plainly(3, 3, 3, Candidate, OWN, 0, 0, ZEROS, ZEROS), Calm(4, 3, 1, [])]
  {
    hide At, Step, Wf, Tidy;
    assert |RUN| == 43 && RUN[32] == Crash(3) && RUN[33] == Elect(3);
    AtNext(5, RUN, 32);
    AtNext(5, RUN, 33);
    hide RUN;
    SnapshotTaken();
    assert seq(5, _ => 0) == ZEROS;
    assert Restart(Plainly(3, 2, 3, Leader, OWN, 0, 0, Fives(1), ZEROS)) == Calm(3, 2, 3, OWN);
    CrashFact(At(5, RUN, 32), 3);
    ElectFact(At(5, RUN, 33), 3);
  }

  /** Node 0's last term is 1 again, below that of node 3. */
  lemma FourthLeader()
    ensures var c := At(5, RUN, 39);
      && Tidy(c) && |c.re.beats| == 2
      && c.nodes == [Cut(4, 3),
                     Plainly(1, 3, 1, Leader, COMMON, 2, 0, [3, 1, 3, 1, 1], [2, 0, 2, 0, 0]), Calm(2, 3, 1, COMMON),
                     Plainly(3, 4, 3, Leader, OWN, 0, 0, Fives(2), ZEROS), Calm(4, 4, 3, [])]
  {
    hide At, Step, Wf, Tidy;
    FourthCampaign();
    hide RUN, Campaigning;
    Restarted();
    var c := At(5, RUN, 34);
    Crowning(c.nodes[3]);
    CampaignAt(RUN, 34, 3, 0, 4);
  }

  lemma BehindSnapshot()
    ensures var c := At(5, RUN, 42);
      c.nodes == [Cut(4, 3),
                  Plainly(1, 3, 1, Leader, COMMON, 2, 0, [3, 1, 3, 1, 1], [2, 0, 2, 0, 0]), Calm(2, 3, 1, COMMON),
                  Plainly(3, 4, 3, Leader, OWN, 0, 0, [3, 2, 2, 2, 2], ZEROS), Calm(4, 4, 3, [])]
  {
    hide At, Step, Wf, Tidy, AppendEntries, AppendReplied;
    assert |RUN| == 43 && RUN[39] == HeartBeat(3) && RUN[40] == DeliverAppend(AppendKey(2, 0))
      && RUN[41] == AppendAnswered(AppendKey(2, 0));
    AtNext(5, RUN, 39);
    AtNext(5, RUN, 40);
    AtNext(5, RUN, 41);
    hide RUN;
    FourthLeader();
    var c := At(5, RUN, 39);
    Beating(c, 3, 0, 4);
    Redirected(Since(c.nodes[3], 0));
    Exchange(At(5, RUN, 40), 2, 0);
  }

  lemma Redirected(args: AppendArgs)
    requires args.term == 4 && args.prevIndex == 1
    ensures AppendEntries(Cut(4, 3), args) == (Cut(4, 3), AppendReply(4, false, 3))
    ensures AppendReplied(Plainly(3, 4, 3, Leader, OWN, 0, 0, Fives(2), ZEROS), 0, args, 1,
        AppendReply(4, false, 3)).0 ==
      Plainly(3, 4, 3, Leader, OWN, 0, 0, [3, 2, 2, 2, 2], ZEROS)
  {
  }

  // ---------- what the run shows ----------

  /** The heartbeat of a leader fails its assertion on the previous index, and the leader dies of it. */
  lemma AssertionFails()
    ensures At(5, RUN, 42).nodes[3].status == Leader
    ensures At(5, RUN, 43).nodes[3].halted == Some(PrevIndexInLog)
  {
    hide At, Step, Wf;
    assert |RUN| == 43 && RUN[42] == HeartBeat(3);
    AtNext(5, RUN, 42);
    hide RUN;
    BehindSnapshot();
    var n := Plainly(3, 4, 3, Leader, OWN, 0, 0, [3, 2, 2, 2, 2], ZEROS);
    assert BeatFault(n, 0) == Some(PrevIndexInLog) && FirstBeatFault(n, 0) == Some(PrevIndexInLog);
    FatalBeat(At(5, RUN, 42), 3);
  }

  /** So the run is not clean. */
  lemma RunIsNotClean()
    ensures !CleanRuns.CleanRun(5, RUN)
  {
    hide At, CleanRuns.CleanRun, Wf;
    assert |RUN| == 43;
    hide RUN;
    AssertionFails();
    if CleanRuns.CleanRun(5, RUN) {
      CleanProgress.NoAssertionFails(5, RUN, 43, 3);
    }
  }
}
