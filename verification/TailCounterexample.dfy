/** Why the three agreement theorems ask for clean runs. In the run below node 0 overwrites a conflicting
    entry and keeps the one behind it, which lowers its last term; so it votes for a leader that lacks a
    committed entry, and two nodes apply different commands at index 1. */
module TailCounterexample {
  import opened RaftTypes
  import opened RaftNode
  import opened RaftCluster
  import opened ConcreteSteps
  import CleanRuns
  import Agreement
  import Deliveries

  const FIRST := Op("Put", "k", "first", "c", 1)
  const SECOND := Op("Put", "k", "second", "c", 2)
  const CHOSEN := Op("Put", "k", "chosen", "d", 1)
  const LATER := Op("Put", "k", "later", "c", 3)

  const OLD := [LogEntry(FIRST, 1, 1), LogEntry(SECOND, 1, 2)]
  const NEW := [LogEntry(CHOSEN, 2, 1)]
  const MIXED := [NEW[0], OLD[1]]
  const FULL := OLD + [LogEntry(LATER, 3, 3)]

  const RUN: seq<Event> := [
    // node 0 leads term 1, takes two commands and gets them to node 3 only
    Elect(0), DeliverVote(Vote(0, 1, 1)), VoteAnswered(Vote(0, 1, 1)),
    DeliverVote(Vote(0, 1, 2)), VoteAnswered(Vote(0, 1, 2)),
    ClientStart(0, FIRST), ClientStart(0, SECOND), HeartBeat(0), DeliverAppend(AppendKey(0, 3)),
    // node 1 leads term 2 and commits its command with nodes 0 and 2
    Elect(1), DeliverVote(Vote(1, 2, 2)), VoteAnswered(Vote(1, 2, 2)),
    DeliverVote(Vote(1, 2, 4)), VoteAnswered(Vote(1, 2, 4)),
    ClientStart(1, CHOSEN), HeartBeat(1),
    DeliverAppend(AppendKey(1, 0)), AppendAnswered(AppendKey(1, 0)),
    DeliverAppend(AppendKey(1, 2)), AppendAnswered(AppendKey(1, 2)), Apply(1),
    // node 3 leads term 3 with the vote of node 0 and commits its own log
    Elect(3), Elect(3), DeliverVote(Vote(3, 3, 0)), VoteAnswered(Vote(3, 3, 0)),
    DeliverVote(Vote(3, 3, 4)), VoteAnswered(Vote(3, 3, 4)),
    ClientStart(3, LATER), HeartBeat(3), DeliverAppend(AppendKey(2, 4)), AppendAnswered(AppendKey(2, 4)),
    HeartBeat(3), DeliverAppend(AppendKey(3, 0)), AppendAnswered(AppendKey(3, 0)),
    DeliverAppend(AppendKey(3, 4)), AppendAnswered(AppendKey(3, 4)), Apply(3)]

  // ---------- the run ----------

  lemma FirstCampaign()
    ensures |RUN| == 37 && Campaigning(RUN, 0, 0, 1, 1, 2)
  {
    hide At, Step, Wf;
    assert |RUN| == 37 && RUN[0] == Elect(0);
    assert RUN[1] == DeliverVote(Vote(0, 1, 1)) && RUN[2] == VoteAnswered(Vote(0, 1, 1));
    assert RUN[3] == DeliverVote(Vote(0, 1, 2)) && RUN[4] == VoteAnswered(Vote(0, 1, 2));
  }

  lemma SecondCampaign()
    ensures |RUN| == 37 && Campaigning(RUN, 9, 1, 2, 2, 4)
  {
    hide At, Step, Wf;
    assert |RUN| == 37 && RUN[9] == Elect(1);
    assert RUN[10] == DeliverVote(Vote(1, 2, 2)) && RUN[11] == VoteAnswered(Vote(1, 2, 2));
    assert RUN[12] == DeliverVote(Vote(1, 2, 4)) && RUN[13] == VoteAnswered(Vote(1, 2, 4));
  }

  lemma ThirdCampaign()
    ensures |RUN| == 37 && Campaigning(RUN, 22, 3, 3, 0, 4)
  {
    hide At, Step, Wf;
    assert |RUN| == 37 && RUN[22] == Elect(3);
    assert RUN[23] == DeliverVote(Vote(3, 3, 0)) && RUN[24] == VoteAnswered(Vote(3, 3, 0));
    assert RUN[25] == DeliverVote(Vote(3, 3, 4)) && RUN[26] == VoteAnswered(Vote(3, 3, 4));
  }

  lemma FirstLeader()
    ensures var c := At(5, RUN, 5);
      && Tidy(c) && |c.re.beats| == 0 && c.past.delivered == [[], [], [], [], []]
      && c.nodes == [Plainly(0, 1, 0, Leader, [], 0, 0, Fives(1), ZEROS), Calm(1, 1, 0, []), Calm(2, 1, 0, []),
                     Calm(3, 0, -1, []), Calm(4, 0, -1, [])]
  {
    hide At, Step, Wf, Tidy;
    FirstCampaign();
    Begin(RUN);
    hide RUN, Campaigning;
    var c := At(5, RUN, 0);
    Crowning(c.nodes[0]);
    CampaignAt(RUN, 0, 0, 1, 2);
  }

  lemma OldEntries()
    ensures var c := At(5, RUN, 7);
      && Tidy(c) && |c.re.beats| == 0 && c.past.delivered == [[], [], [], [], []]
      && c.nodes == [Plainly(0, 1, 0, Leader, OLD, 0, 0, Fives(1), ZEROS), Calm(1, 1, 0, []), Calm(2, 1, 0, []),
                     Calm(3, 0, -1, []), Calm(4, 0, -1, [])]
  {
    hide At, Step, Wf, Tidy;
    FirstLeader();
    StartFact(At(5, RUN, 5), 0, FIRST);
    AtNext(5, RUN, 5);
    StartFact(At(5, RUN, 6), 0, SECOND);
    AtNext(5, RUN, 6);
    assert At(5, RUN, 7).nodes[0].log == OLD;
  }

  /** Node 3 gets the two entries of term 1. */
  lemma OldEntriesSent()
    ensures var c := At(5, RUN, 9);
      && Tidy(c) && |c.re.beats| == 1 && c.past.delivered == [[], [], [], [], []]
      && c.nodes == [Plainly(0, 1, 0, Leader, OLD, 0, 0, Fives(1), ZEROS), Calm(1, 1, 0, []), Calm(2, 1, 0, []),
                     Calm(3, 1, -1, OLD), Calm(4, 0, -1, [])]
  {
    hide At, Step, Wf, Tidy, AppendEntries;
    OldEntries();
    var c, args := At(5, RUN, 7), AppendArgs(1, 0, 0, 0, OLD, 0);
    assert RUN[7] == HeartBeat(0) && RUN[8] == DeliverAppend(AppendKey(0, 3));
    AtNext(5, RUN, 7);
    AtNext(5, RUN, 8);
    assert OLD[0..] == OLD && Since(c.nodes[0], 3) == args;
    Beating(c, 0, 3, 3);
    Taking(c.nodes[3], args, OLD);
    assert Followed(c.nodes[3], args).(log := OLD).Persist() == Calm(3, 1, -1, OLD);
    hide RUN, Since;
    DeliverFact(At(5, RUN, 8), AppendKey(0, 3));
  }

  lemma SecondElection()
    ensures var c := At(5, RUN, 14);
      && Tidy(c) && |c.re.beats| == 1 && c.past.delivered == [[], [], [], [], []]
      && c.nodes == [Plainly(0, 1, 0, Leader, OLD, 0, 0, Fives(1), ZEROS),
                     Plainly(1, 2, 1, Leader, [], 0, 0, Fives(1), ZEROS),
                     Calm(2, 2, 1, []), Calm(3, 1, -1, OLD), Calm(4, 2, 1, [])]
  {
    hide At, Step, Wf, Tidy, OLD;
    SecondCampaign();
    hide RUN, Campaigning;
    OldEntriesSent();
    var c := At(5, RUN, 9);
    Crowning(c.nodes[1]);
    CampaignAt(RUN, 9, 1, 2, 4);
  }

  lemma SecondLeader()
    ensures var c := At(5, RUN, 15);
      && Tidy(c) && |c.re.beats| == 1 && c.past.delivered == [[], [], [], [], []]
      && c.nodes == [Plainly(0, 1, 0, Leader, OLD, 0, 0, Fives(1), ZEROS),
                     Plainly(1, 2, 1, Leader, NEW, 0, 0, Fives(1), ZEROS),
                     Calm(2, 2, 1, []), Calm(3, 1, -1, OLD), Calm(4, 2, 1, [])]
  {
    hide At, Step, Wf, Tidy, OLD;
    assert |RUN| == 37 && RUN[14] == ClientStart(1, CHOSEN);
    AtNext(5, RUN, 14);
    hide RUN;
    SecondElection();
    StartFact(At(5, RUN, 14), 1, CHOSEN);
    assert At(5, RUN, 15).nodes[1].log == NEW;
  }

  lemma NewEntrySent()
    ensures var c, args := At(5, RUN, 16), AppendArgs(2, 1, 0, 0, NEW, 0);
      && Tidy(c) && |c.re.beats| == 2 && c.past.delivered == [[], [], [], [], []]
      && c.nodes == [Plainly(0, 1, 0, Leader, OLD, 0, 0, Fives(1), ZEROS),
          Plainly(1, 2, 1, Leader, NEW, 0, 0, Fives(1), ZEROS),
                     Calm(2, 2, 1, []), Calm(3, 1, -1, OLD), Calm(4, 2, 1, [])]
      && var b := c.re.beats[1];
      && b.leader == 1 && 0 in b.sent && b.sent[0] == args && 2 in b.sent && b.sent[2] == args
      && 1 in c.re.counts && c.re.counts[1] == 1 && forall k | k in c.re.replies :: k.round != 1
  {
    hide At, Step, Wf, Tidy;
    SecondLeader();
    AtNext(5, RUN, 15);
    assert RUN[15] == HeartBeat(1);
    var c := At(5, RUN, 15);
    assert c.nodes[1].nextIndex == Fives(1) && c.nodes[1].log == NEW && c.nodes[1].commitIndex == 0
      && c.nodes[1].snapIndex == 0
      && c.nodes[1].id == 1 && c.nodes[1].term == 2 && c.nodes[1].status == Leader && c.nodes[1].halted.None?;
    hide Plainly, Calm, RUN;
    Beating(c, 1, 0, 2);
    assert NEW[0..] == NEW;
    assert Since(c.nodes[1], 0) == AppendArgs(2, 1, 0, 0, NEW, 0);
    assert Since(c.nodes[1], 2) == AppendArgs(2, 1, 0, 0, NEW, 0);
  }

  /** Node 0 takes the new entry and keeps its old one behind it. */
  lemma TailKept()
    ensures var c := At(5, RUN, 17);
      && Tidy(c) && |c.re.beats| == 2 && c.past.delivered == [[], [], [], [], []]
      && c.nodes == [Plainly(0, 2, -1, Follower, MIXED, 0, 0, Fives(1), ZEROS),
                     Plainly(1, 2, 1, Leader, NEW, 0, 0, Fives(1), ZEROS),
                     Calm(2, 2, 1, []), Calm(3, 1, -1, OLD), Calm(4, 2, 1, [])]
      && var b, args := c.re.beats[1], AppendArgs(2, 1, 0, 0, NEW, 0);
      && b.leader == 1 && 0 in b.sent && b.sent[0] == args && 2 in b.sent && b.sent[2] == args
      && 1 in c.re.counts && c.re.counts[1] == 1 && AppendKey(1, 2) !in c.re.replies
      && AppendKey(1, 0) in c.re.replies && c.re.replies[AppendKey(1, 0)] == AppendReply(2, true, 0)
      && AppendKey(1, 0) !in c.re.closed
  {
    hide At, Step, Wf, AppendEntries;
    assert |RUN| == 37 && RUN[16] == DeliverAppend(AppendKey(1, 0));
    AtNext(5, RUN, 16);
    hide RUN;
    NewEntrySent();
    MixedUp(AppendArgs(2, 1, 0, 0, NEW, 0));
    hide MIXED, NEW, OLD;
    DeliverFact(At(5, RUN, 16), AppendKey(1, 0));
  }

  lemma TailCounted()
    ensures var c := At(5, RUN, 18);
      && Tidy(c) && |c.re.beats| == 2 && c.past.delivered == [[], [], [], [], []]
      && c.nodes == [Plainly(0, 2, -1, Follower, MIXED, 0, 0, Fives(1), ZEROS),
                     Plainly(1, 2, 1, Leader, NEW, 0, 0, [2, 1, 1, 1, 1], [1, 0, 0, 0, 0]),
                     Calm(2, 2, 1, []), Calm(3, 1, -1, OLD), Calm(4, 2, 1, [])]
      && var b := c.re.beats[1];
      && b.leader == 1 && 2 in b.sent && b.sent[2] == AppendArgs(2, 1, 0, 0, NEW, 0)
      && 1 in c.re.counts && c.re.counts[1] == 2 && AppendKey(1, 2) !in c.re.replies
  {
    hide At, Step, Wf, Tidy, AppendReplied;
    assert |RUN| == 37 && RUN[17] == AppendAnswered(AppendKey(1, 0));
    AtNext(5, RUN, 17);
    hide RUN;
    TailKept();
    MixedUp(AppendArgs(2, 1, 0, 0, NEW, 0));
    hide MIXED, NEW, OLD;
    AnswerFact(At(5, RUN, 17), AppendKey(1, 0));
  }

  lemma MixedUp(args: AppendArgs)
    requires args == AppendArgs(2, 1, 0, 0, NEW, 0)
    ensures AppendEntries(Plainly(0, 1, 0, Leader, OLD, 0, 0, Fives(1), ZEROS), args) ==
      (Plainly(0, 2, -1, Follower, MIXED, 0, 0, Fives(1), ZEROS), AppendReply(2, true, 0))
    ensures AppendReplied(Plainly(1, 2, 1, Leader, NEW, 0, 0, Fives(1), ZEROS), 0, args, 1, AppendReply(2, true, 0)) ==
      (Plainly(1, 2, 1, Leader, NEW, 0, 0, [2, 1, 1, 1, 1], [1, 0, 0, 0, 0]), 2)
  {
    hide AppendEntries, AppendReplied;
    var n0, n1 := Plainly(0, 1, 0, Leader, OLD, 0, 0, Fives(1), ZEROS),
        Plainly(1, 2, 1, Leader, NEW, 0, 0, Fives(1), ZEROS);
    Taking(n0, args, MIXED);
    Counted(n1, 0, args, 1);
    assert n1.nextIndex[0 := 2] == [2, 1, 1, 1, 1] && n1.matchIndex[0 := 1] == [1, 0, 0, 0, 0];
  }

  /** Nodes 0, 1 and 2 are a majority: the new entry is committed. */
  lemma NewEntryCommitted()
    ensures var c := At(5, RUN, 20);
      && Tidy(c) && |c.re.beats| == 2 && c.past.delivered == [[], [], [], [], []]
      && c.nodes == [Plainly(0, 2, -1, Follower, MIXED, 0, 0, Fives(1), ZEROS),
                     Plainly(1, 2, 1, Leader, NEW, 1, 0, [2, 1, 2, 1, 1], [1, 0, 1, 0, 0]),
                     Calm(2, 2, 1, NEW), Calm(3, 1, -1, OLD), Calm(4, 2, 1, [])]
  {
    hide At, Step, Wf, Tidy, AppendEntries, AppendReplied;
    assert |RUN| == 37 && RUN[18] == DeliverAppend(AppendKey(1, 2)) && RUN[19] == AppendAnswered(AppendKey(1, 2));
    AtNext(5, RUN, 18);
    AtNext(5, RUN, 19);
    hide RUN;
    TailCounted();
    var c, args := At(5, RUN, 18), AppendArgs(2, 1, 0, 0, NEW, 0);
    MajorityReached(args);
    Exchange(c, 1, 2);
  }

  lemma MajorityReached(args: AppendArgs)
    requires args == AppendArgs(2, 1, 0, 0, NEW, 0)
    ensures AppendEntries(Calm(2, 2, 1, []), args) == (Calm(2, 2, 1, NEW), AppendReply(2, true, 0))
    ensures AppendReplied(Plainly(1, 2, 1, Leader, NEW, 0, 0, [2, 1, 1, 1, 1], [1, 0, 0, 0, 0]), 2, args, 2,
        AppendReply(2, true, 0)) ==
      (Plainly(1, 2, 1, Leader, NEW, 1, 0, [2, 1, 2, 1, 1], [1, 0, 1, 0, 0]), 0)
  {
    hide AppendEntries, AppendReplied;
    var n2, n1 := Calm(2, 2, 1, []), Plainly(1, 2, 1, Leader, NEW, 0, 0, [2, 1, 1, 1, 1], [1, 0, 0, 0, 0]);
    Taking(n2, args, NEW);
    Counted(n1, 2, args, 2);
    assert n1.nextIndex[2 := 2] == [2, 1, 2, 1, 1] && n1.matchIndex[2 := 1] == [1, 0, 1, 0, 0];
  }

  /** Node 1 applies it. */
  lemma NewEntryApplied()
    ensures var c := At(5, RUN, 21);
      && Tidy(c) && |c.re.beats| == 2 && c.past.delivered == [[], [ApplyMsg(1, CHOSEN)], [], [], []]
      && c.nodes == [Plainly(0, 2, -1, Follower, MIXED, 0, 0, Fives(1), ZEROS),
                     Plainly(1, 2, 1, Leader, NEW, 1, 1, [2, 1, 2, 1, 1], [1, 0, 1, 0, 0]),
                     Calm(2, 2, 1, NEW), Calm(3, 1, -1, OLD), Calm(4, 2, 1, [])]
  {
    hide At, Step, Wf, Tidy;
    NewEntryCommitted();
    var c := At(5, RUN, 20);
    ValidAt(c, 1);
    ApplyFact(c, 1);
    assert ApplyLogs(c.nodes[1]).1 == [ApplyMsg(1, CHOSEN)];
    AtNext(5, RUN, 20);
    assert [] + [ApplyMsg(1, CHOSEN)] == [ApplyMsg(1, CHOSEN)];
  }

  /** Node 3 stands twice; node 0, whose last term is 1 again, votes for it. */
  lemma ThirdLeader()
    ensures var c := At(5, RUN, 28);
      && Tidy(c) && |c.re.beats| == 2 && c.past.delivered == [[], [ApplyMsg(1, CHOSEN)], [], [], []]
      && c.nodes == [Plainly(0, 3, 3, Follower, MIXED, 0, 0, Fives(1), ZEROS),
                     Plainly(1, 2, 1, Leader, NEW, 1, 1, [2, 1, 2, 1, 1], [1, 0, 1, 0, 0]),
                     Calm(2, 2, 1, NEW), Plainly(3, 3, 3, Leader, FULL, 0, 0, Fives(3), ZEROS), Calm(4, 3, 3, [])]
  {
    hide At, Step, Wf, Tidy, MIXED, NEW;
    assert |RUN| == 37 && RUN[27] == ClientStart(3, LATER);
    AtNext(5, RUN, 27);
    hide RUN;
    ThirdElection();
    StartFact(At(5, RUN, 27), 3, LATER);
    assert At(5, RUN, 28).nodes[3].log == FULL;
  }

  lemma ThirdElection()
    ensures var c := At(5, RUN, 27);
      && Tidy(c) && |c.re.beats| == 2 && c.past.delivered == [[], [ApplyMsg(1, CHOSEN)], [], [], []]
      && c.nodes == [Plainly(0, 3, 3, Follower, MIXED, 0, 0, Fives(1), ZEROS),
                     Plainly(1, 2, 1, Leader, NEW, 1, 1, [2, 1, 2, 1, 1], [1, 0, 1, 0, 0]),
                     Calm(2, 2, 1, NEW), Plainly(3, 3, 3, Leader, OLD, 0, 0, Fives(3), ZEROS), Calm(4, 3, 3, [])]
  {
    hide At, Step, Wf, Tidy;
    ThirdCampaign();
    hide RUN, Campaigning;
    SecondTry();
    var c := At(5, RUN, 22);
    Crowning(c.nodes[3]);
    CampaignAt(RUN, 22, 3, 0, 4);
  }

  lemma SecondTry()
    ensures var c := At(5, RUN, 22);
      && Tidy(c) && |c.re.beats| == 2 && c.past.delivered == [[], [ApplyMsg(1, CHOSEN)], [], [], []]
      && c.nodes == [Plainly(0, 2, -1, Follower, MIXED, 0, 0, Fives(1), ZEROS),
                     Plainly(1, 2, 1, Leader, NEW, 1, 1, [2, 1, 2, 1, 1], [1, 0, 1, 0, 0]),
                     Calm(2, 2, 1, NEW), Plainly(3, 2, 3, Candidate, OLD, 0, 0, ZEROS, ZEROS), Calm(4, 2, 1, [])]
  {
    hide At, Step, Wf, Tidy;
    NewEntryApplied();
    ElectFact(At(5, RUN, 21), 3);
    AtNext(5, RUN, 21);
  }

  /** Node 4 is too short for the first request; node 3 learns to start from 1. */
  lemma ShortLogFound()
    ensures var c := At(5, RUN, 31);
      && Tidy(c) && |c.re.beats| == 3 && c.past.delivered == [[], [ApplyMsg(1, CHOSEN)], [], [], []]
      && c.nodes == [Plainly(0, 3, 3, Follower, MIXED, 0, 0, Fives(1), ZEROS),
                     Plainly(1, 2, 1, Leader, NEW, 1, 1, [2, 1, 2, 1, 1], [1, 0, 1, 0, 0]),
                     Calm(2, 2, 1, NEW), Plainly(3, 3, 3, Leader, FULL, 0, 0, [3, 3, 3, 3, 1], ZEROS),
                     Calm(4, 3, 3, [])]
  {
    hide At, Step, Wf, Tidy, AppendEntries, AppendReplied;
    assert |RUN| == 37 && RUN[28] == HeartBeat(3) && RUN[29] == DeliverAppend(AppendKey(2, 4))
      && RUN[30] == AppendAnswered(AppendKey(2, 4));
    AtNext(5, RUN, 28);
    AtNext(5, RUN, 29);
    AtNext(5, RUN, 30);
    hide RUN;
    ThirdLeader();
    var c := At(5, RUN, 28);
    Beating(c, 3, 0, 4);
    Redirected(Since(c.nodes[3], 4));
    Exchange(At(5, RUN, 29), 2, 4);
  }

  lemma Redirected(args: AppendArgs)
    requires args.term == 3 && args.prevIndex == 2
    ensures AppendEntries(Calm(4, 3, 3, []), args) == (Calm(4, 3, 3, []), AppendReply(3, false, 1))
    ensures AppendReplied(Plainly(3, 3, 3, Leader, FULL, 0, 0, Fives(3), ZEROS), 4, args, 1,
        AppendReply(3, false, 1)).0 ==
      Plainly(3, 3, 3, Leader, FULL, 0, 0, [3, 3, 3, 3, 1], ZEROS)
  {
  }

  lemma WholeLogSent()
    ensures var c := At(5, RUN, 32);
      && Tidy(c) && |c.re.beats| == 4 && c.past.delivered == [[], [ApplyMsg(1, CHOSEN)], [], [], []]
      && c.nodes == [Plainly(0, 3, 3, Follower, MIXED, 0, 0, Fives(1), ZEROS),
                     Plainly(1, 2, 1, Leader, NEW, 1, 1, [2, 1, 2, 1, 1], [1, 0, 1, 0, 0]),
                     Calm(2, 2, 1, NEW), Plainly(3, 3, 3, Leader, FULL, 0, 0, [3, 3, 3, 3, 1], ZEROS),
                     Calm(4, 3, 3, [])]
      && var b := c.re.beats[3];
      && b.leader == 3 && 0 in b.sent && 4 in b.sent
      && b.sent[0] == AppendArgs(3, 3, 2, 1, FULL[2..], 0) && b.sent[4] == AppendArgs(3, 3, 0, 0, FULL, 0)
      && 3 in c.re.counts && c.re.counts[3] == 1 && forall k | k in c.re.replies :: k.round != 3
  {
    hide At, Step, Wf, Tidy;
    ShortLogFound();
    AtNext(5, RUN, 31);
    assert RUN[31] == HeartBeat(3);
    var c := At(5, RUN, 31);
    var n := c.nodes[3];
    assert n == Plainly(3, 3, 3, Leader, FULL, 0, 0, [3, 3, 3, 3, 1], ZEROS);
    assert Since(n, 0) == AppendArgs(3, 3, 2, 1, FULL[2..], 0);
    assert FULL[0..] == FULL && Since(n, 4) == AppendArgs(3, 3, 0, 0, FULL, 0);
    hide RUN, Since;
    Beating(c, 3, 0, 4);
  }

  /** Node 0 takes the last entry on top of its mixed log. */
  lemma MixedLogTaken()
    ensures var c := At(5, RUN, 34);
      && Tidy(c) && c.past.delivered == [[], [ApplyMsg(1, CHOSEN)], [], [], []] && |c.nodes| == 5
      && c.nodes[3] == Plainly(3, 3, 3, Leader, FULL, 0, 0, [4, 3, 3, 3, 1], [3, 0, 0, 0, 0])
        && c.nodes[4] == Calm(4, 3, 3, [])
      && |c.re.beats| == 4 && var b := c.re.beats[3];
      && b.leader == 3 && 4 in b.sent && b.sent[4] == AppendArgs(3, 3, 0, 0, FULL, 0)
      && 3 in c.re.counts && c.re.counts[3] == 2 && AppendKey(3, 4) !in c.re.replies
  {
    hide At, Step, Wf, Tidy, AppendEntries, AppendReplied;
    assert |RUN| == 37 && RUN[32] == DeliverAppend(AppendKey(3, 0)) && RUN[33] == AppendAnswered(AppendKey(3, 0));
    AtNext(5, RUN, 32);
    AtNext(5, RUN, 33);
    hide RUN;
    WholeLogSent();
    LastEntryTaken(AppendArgs(3, 3, 2, 1, FULL[2..], 0));
    Exchange(At(5, RUN, 32), 3, 0);
  }

  lemma LastEntryTaken(args: AppendArgs)
    requires args == AppendArgs(3, 3, 2, 1, FULL[2..], 0)
    ensures AppendEntries(Plainly(0, 3, 3, Follower, MIXED, 0, 0, Fives(1), ZEROS), args).0.halted.None?
    ensures AppendEntries(Plainly(0, 3, 3, Follower, MIXED, 0, 0, Fives(1), ZEROS), args).1 == AppendReply(3, true, 0)
    ensures AppendReplied(Plainly(3, 3, 3, Leader, FULL, 0, 0, [3, 3, 3, 3, 1], ZEROS), 0, args, 1,
        AppendReply(3, true, 0)) ==
      (Plainly(3, 3, 3, Leader, FULL, 0, 0, [4, 3, 3, 3, 1], [3, 0, 0, 0, 0]), 2)
  {
    hide AppendEntries, AppendReplied;
    var n0, n3 := Plainly(0, 3, 3, Follower, MIXED, 0, 0, Fives(1), ZEROS),
        Plainly(3, 3, 3, Leader, FULL, 0, 0, [3, 3, 3, 3, 1], ZEROS);
    Taking(n0, args, MIXED + FULL[2..]);
    Counted(n3, 0, args, 1);
    assert n3.nextIndex[0 := 4] == [4, 3, 3, 3, 1] && n3.matchIndex[0 := 3] == [3, 0, 0, 0, 0];
  }

  lemma OldLogCommitted()
    ensures var c := At(5, RUN, 37);
      c.past.delivered == [[], [ApplyMsg(1, CHOSEN)], [],
          [ApplyMsg(1, FIRST), ApplyMsg(2, SECOND), ApplyMsg(3, LATER)], []]
  {
    hide At, Step, Wf, Tidy, AppendEntries, AppendReplied;
    assert |RUN| == 37 && RUN[34] == DeliverAppend(AppendKey(3, 4)) && RUN[35] == AppendAnswered(AppendKey(3, 4))
      && RUN[36] == Apply(3);
    AtNext(5, RUN, 34);
    AtNext(5, RUN, 35);
    AtNext(5, RUN, 36);
    hide RUN;
    MixedLogTaken();
    var c, args := At(5, RUN, 34), AppendArgs(3, 3, 0, 0, FULL, 0);
    var n4, n3 := c.nodes[4], c.nodes[3];
    Taking(n4, args, FULL);
    Counted(n3, 4, args, 2);
    Exchange(c, 3, 4);
    var n := At(5, RUN, 36).nodes[3];
    assert n.log == FULL && n.commitIndex == 3 && n.lastApplied == 0 && n.snapIndex == 0 && n.halted.None?;
    ValidAt(At(5, RUN, 36), 3);
    ApplyFact(At(5, RUN, 36), 3);
    assert ApplyLogs(n).1 == [ApplyMsg(1, FIRST), ApplyMsg(2, SECOND), ApplyMsg(3, LATER)];
    assert [] + ApplyLogs(n).1 == ApplyLogs(n).1;
  }

  // ---------- what the run shows ----------

  /** Log Matching fails: node 0 holds the same entry at index 2 at both times, on top of another one. */
  lemma LogsDoNotMatch()
    ensures var f, g := At(5, RUN, 9).nodes[0].log, At(5, RUN, 21).nodes[0].log;
      |f| == |g| == 2 && f[1] == g[1] && f[0] != g[0]
  {
    hide At;
    OldEntriesSent();
    NewEntryApplied();
  }

  /** Leader Completeness fails: node 1 has committed its entry, and the leader of term 3 does not have it. */
  lemma LeaderLacksCommitted()
    ensures var committer, leader := At(5, RUN, 21).nodes[1], At(5, RUN, 28).nodes[3];
      && committer.status == Leader && committer.term == 2 && committer.commitIndex == 1 && |committer.log| == 1
      && leader.status == Leader && leader.term == 3 && committer.log[0] !in leader.log
  {
    hide At;
    NewEntryApplied();
    ThirdLeader();
  }

  /** State Machine Safety fails: nodes 1 and 3 apply different commands at index 1. */
  lemma StateMachinesDiverge()
    ensures var given := At(5, RUN, 37).past.delivered;
      |given| == 5 && |given[1]| > 0 && |given[3]| > 0
      && given[1][0].index == given[3][0].index == 1 && given[1][0].command != given[3][0].command
  {
    hide At;
    OldLogCommitted();
  }

  /** So the run is not clean. */
  lemma RunIsNotClean()
    ensures !CleanRuns.CleanRun(5, RUN)
  {
    hide At, CleanRuns.CleanRun, Wf, Deliveries.Orderly, Deliveries.Proposed;
    assert |RUN| == 37;
    hide RUN;
    OldLogCommitted();
    Deliveries.DeliveringAt(5, RUN, 37, 1);
    Deliveries.DeliveringAt(5, RUN, 37, 3);
    var given := At(5, RUN, 37).past.delivered;
    assert given[1][0] in given[1] && given[3][0] in given[3];
    if CleanRuns.CleanRun(5, RUN) {
      Agreement.DeliveriesAgree(5, RUN, 37, 37, given[1][0], given[3][0]);
    }
  }
}
