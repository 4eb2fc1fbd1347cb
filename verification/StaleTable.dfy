/** Why the servers are not always in the state of the log, in a clean run and with every message in order. A
    follower that has carried out one write takes over a snapshot of two; the key it holds keeps its old value
    (skipList.h:334-347), while the server that made the snapshot has the new one. */
module StaleTable {
  import opened RaftTypes
  import opened RaftNode
  import opened RaftCluster
  import opened ConcreteSteps
  import opened CleanRuns
  import Entries
  import opened KvMachine
  import opened Services
  import HandOver
  import Replicas

  const FIRST := Op("Put", "k", "first", "c", 1)
  const SECOND := Op("Put", "k", "second", "c", 2)

  const ONE := [LogEntry(FIRST, 1, 1)]
  const TWO := [LogEntry(FIRST, 1, 1), LogEntry(SECOND, 1, 2)]

  /** Raft's part of the run, up to where servers come in. */
  const RUN: seq<Event> := [
    // node 0 leads term 1 and commits a write with nodes 1 and 2
    Elect(0), DeliverVote(Vote(0, 1, 1)), VoteAnswered(Vote(0, 1, 1)),
    DeliverVote(Vote(0, 1, 2)), VoteAnswered(Vote(0, 1, 2)),
    ClientStart(0, FIRST), HeartBeat(0),
    DeliverAppend(AppendKey(0, 1)), AppendAnswered(AppendKey(0, 1)),
    DeliverAppend(AppendKey(0, 2)), AppendAnswered(AppendKey(0, 2)),
    // it tells node 1 with the next write, which it commits with nodes 3 and 4
    ClientStart(0, SECOND), HeartBeat(0), DeliverAppend(AppendKey(1, 1)),
    DeliverAppend(AppendKey(1, 3)), AppendAnswered(AppendKey(1, 3)),
    DeliverAppend(AppendKey(1, 4)), AppendAnswered(AppendKey(1, 4))]

  // ---------- Raft ----------

  lemma FirstCampaign()
    ensures |RUN| == 18 && Campaigning(RUN, 0, 0, 1, 1, 2)
  {
    hide At, Step, Wf;
    assert |RUN| == 18 && RUN[0] == Elect(0);
    assert RUN[1] == DeliverVote(Vote(0, 1, 1)) && RUN[2] == VoteAnswered(Vote(0, 1, 1));
    assert RUN[3] == DeliverVote(Vote(0, 1, 2)) && RUN[4] == VoteAnswered(Vote(0, 1, 2));
  }

  lemma FirstLeader()
    ensures var c := At(5, RUN, 5);
      && Tidy(c) && |c.re.beats| == 0
      && c.nodes == [Plainly(0, 1, 0, Leader, [], 0, 0, Fives(1), ZEROS), Calm(1, 1, 0, []), Calm(2, 1, 0, []),
                     Calm(3, 0, -1, []), Calm(4, 0, -1, [])]
  {
    hide At, Step, Wf, Tidy;
    FirstCampaign();
    Begin(RUN);
    hide RUN, Campaigning;
    var c := At(5, RUN, 0);
    Crowning(c.nodes[0]);
    CampaignAt(RUN, 0, 0, 1, 2);
  }

  function First(): AppendArgs { AppendArgs(1, 0, 0, 0, ONE, 0) }

  lemma FirstSent()
    ensures var c := At(5, RUN, 7);
      && Tidy(c) && |c.re.beats| == 1
      && c.nodes == [Plainly(0, 1, 0, Leader, ONE, 0, 0, Fives(1), ZEROS), Calm(1, 1, 0, []), Calm(2, 1, 0, []),
                     Calm(3, 0, -1, []), Calm(4, 0, -1, [])]
      && var b := c.re.beats[0];
      && b.leader == 0 && 1 in b.sent && b.sent[1] == First() && 2 in b.sent && b.sent[2] == First()
      && 0 in c.re.counts && c.re.counts[0] == 1 && forall k | k in c.re.replies :: k.round != 0
  {
    hide At, Step, Wf, Tidy;
    assert |RUN| == 18 && RUN[5] == ClientStart(0, FIRST) && RUN[6] == HeartBeat(0);
    AtNext(5, RUN, 5);
    AtNext(5, RUN, 6);
    hide RUN;
    FirstLeader();
    StartFact(At(5, RUN, 5), 0, FIRST);
    var c := At(5, RUN, 6);
    assert c.nodes[0].log == ONE && ONE[0..] == ONE;
    assert Since(c.nodes[0], 1) == First() && Since(c.nodes[0], 2) == First();
    hide Since;
    Beating(c, 0, 1, 2);
  }

  lemma FirstTaken(args: AppendArgs, id: nat)
    requires args == First()
    ensures AppendEntries(Calm(id, 1, 0, []), args) == (Calm(id, 1, 0, ONE), AppendReply(1, true, 0))
  {
    hide AppendEntries;
    Taking(Calm(id, 1, 0, []), args, ONE);
  }

  lemma FirstCounted(args: AppendArgs)
    requires args == First()
    ensures AppendReplied(Plainly(0, 1, 0, Leader, ONE, 0, 0, Fives(1), ZEROS), 1, args, 1, AppendReply(1, true, 0)) ==
      (Plainly(0, 1, 0, Leader, ONE, 0, 0, [1, 2, 1, 1, 1], [0, 1, 0, 0, 0]), 2)
    ensures AppendReplied(Plainly(0, 1, 0, Leader, ONE, 0, 0, [1, 2, 1, 1, 1], [0, 1, 0, 0, 0]), 2, args, 2,
                          AppendReply(1, true, 0)) ==
      (Plainly(0, 1, 0, Leader, ONE, 1, 0, [1, 2, 2, 1, 1], [0, 1, 1, 0, 0]), 0)
  {
    hide AppendReplied;
    var n := Plainly(0, 1, 0, Leader, ONE, 0, 0, Fives(1), ZEROS);
    var m := Plainly(0, 1, 0, Leader, ONE, 0, 0, [1, 2, 1, 1, 1], [0, 1, 0, 0, 0]);
    Counted(n, 1, args, 1);
    assert n.nextIndex[1 := 2] == m.nextIndex && n.matchIndex[1 := 1] == m.matchIndex;
    Counted(m, 2, args, 2);
    assert m.nextIndex[2 := 2] == [1, 2, 2, 1, 1] && m.matchIndex[2 := 1] == [0, 1, 1, 0, 0];
  }

  lemma FirstHeld()
    ensures var c := At(5, RUN, 9);
      && Tidy(c) && |c.re.beats| == 1
      && c.nodes == [Plainly(0, 1, 0, Leader, ONE, 0, 0, [1, 2, 1, 1, 1], [0, 1, 0, 0, 0]), Calm(1, 1, 0, ONE),
                     Calm(2, 1, 0, []), Calm(3, 0, -1, []), Calm(4, 0, -1, [])]
      && var b := c.re.beats[0];
      && b.leader == 0 && 2 in b.sent && b.sent[2] == First()
      && 0 in c.re.counts && c.re.counts[0] == 2 && AppendKey(0, 2) !in c.re.replies
  {
    hide At, Step, Wf, Tidy, AppendEntries, AppendReplied;
    assert |RUN| == 18 && RUN[7] == DeliverAppend(AppendKey(0, 1)) && RUN[8] == AppendAnswered(AppendKey(0, 1));
    AtNext(5, RUN, 7);
    AtNext(5, RUN, 8);
    hide RUN;
    FirstSent();
    FirstTaken(First(), 1);
    FirstCounted(First());
    hide ONE, First;
    Exchange(At(5, RUN, 7), 0, 1);
  }

  lemma FirstCommitted()
    ensures var c := At(5, RUN, 11);
      && Tidy(c) && |c.re.beats| == 1
      && c.nodes == [Plainly(0, 1, 0, Leader, ONE, 1, 0, [1, 2, 2, 1, 1], [0, 1, 1, 0, 0]), Calm(1, 1, 0, ONE),
                     Calm(2, 1, 0, ONE), Calm(3, 0, -1, []), Calm(4, 0, -1, [])]
  {
    hide At, Step, Wf, Tidy, AppendEntries, AppendReplied;
    assert |RUN| == 18 && RUN[9] == DeliverAppend(AppendKey(0, 2)) && RUN[10] == AppendAnswered(AppendKey(0, 2));
    AtNext(5, RUN, 9);
    AtNext(5, RUN, 10);
    hide RUN;
    FirstHeld();
    FirstTaken(First(), 2);
    FirstCounted(First());
    hide ONE, First;
    Exchange(At(5, RUN, 9), 0, 2);
  }

  /** To a node that has the first write, and to one that has none. */
  function Rest(): AppendArgs { AppendArgs(1, 0, 1, 1, [LogEntry(SECOND, 1, 2)], 1) }
  function Both(): AppendArgs { AppendArgs(1, 0, 0, 0, TWO, 1) }

  lemma SecondSent()
    ensures var c := At(5, RUN, 13);
      && Tidy(c) && |c.re.beats| == 2
      && c.nodes == [Plainly(0, 1, 0, Leader, TWO, 1, 0, [1, 2, 2, 1, 1], [0, 1, 1, 0, 0]), Calm(1, 1, 0, ONE),
                     Calm(2, 1, 0, ONE), Calm(3, 0, -1, []), Calm(4, 0, -1, [])]
      && var b := c.re.beats[1];
      && b.leader == 0 && 1 in b.sent && b.sent[1] == Rest()
      && 3 in b.sent && b.sent[3] == Both() && 4 in b.sent && b.sent[4] == Both()
      && 1 in c.re.counts && c.re.counts[1] == 1 && forall k | k in c.re.replies :: k.round != 1
  {
    hide At, Step, Wf, Tidy;
    assert |RUN| == 18 && RUN[11] == ClientStart(0, SECOND) && RUN[12] == HeartBeat(0);
    AtNext(5, RUN, 11);
    AtNext(5, RUN, 12);
    hide RUN;
    FirstCommitted();
    StartFact(At(5, RUN, 11), 0, SECOND);
    var c := At(5, RUN, 12);
    assert c.nodes[0].log == TWO && TWO[0..] == TWO && TWO[1..] == [LogEntry(SECOND, 1, 2)];
    assert Since(c.nodes[0], 1) == Rest() && Since(c.nodes[0], 3) == Both() && Since(c.nodes[0], 4) == Both();
    hide Since;
    Beating(c, 0, 1, 3);
    Beating(c, 0, 4, 3);
  }

  /** An accepted request that tells of one commit. */
  lemma TakingCommit(n: Node, args: AppendArgs, log: seq<LogEntry>)
    requires n.snapIndex == n.snapTerm == 0 && n.commitIndex < args.leaderCommit <= |log| && n.term <= args.term
    requires args.prevIndex <= |n.log| && n.TermAt(args.prevIndex) == args.prevTerm
    requires args.prevIndex == |n.log| && log == n.log + args.entries
    ensures AppendEntries(n, args) ==
      (Followed(n, args).(log := log, commitIndex := args.leaderCommit).Persist(), AppendReply(args.term, true, 0))
  {
    var m := Followed(n, args);
    assert m.log == n.log && m.snapIndex == 0 && Splice(m.log, args.prevIndex, args.entries) == log;
    assert !Clashes(m.log, args.prevIndex, args.entries);
    assert Absorb(m, args) == m.(log := log, commitIndex := args.leaderCommit);
    assert Replicate(m, args).0 == m.(log := log, commitIndex := args.leaderCommit).Persist();
  }

  lemma SecondTaken(id: nat)
    ensures AppendEntries(Calm(1, 1, 0, ONE), Rest()) ==
      (Plainly(1, 1, 0, Follower, TWO, 1, 0, ZEROS, ZEROS), AppendReply(1, true, 0))
    ensures AppendEntries(Calm(id, 0, -1, []), Both()) ==
      (Plainly(id, 1, -1, Follower, TWO, 1, 0, ZEROS, ZEROS), AppendReply(1, true, 0))
  {
    hide AppendEntries;
    TakingCommit(Calm(1, 1, 0, ONE), Rest(), TWO);
    TakingCommit(Calm(id, 0, -1, []), Both(), TWO);
  }

  lemma SecondCounted()
    ensures AppendReplied(Plainly(0, 1, 0, Leader, TWO, 1, 0, [1, 2, 2, 1, 1], [0, 1, 1, 0, 0]), 3, Both(), 1,
                          AppendReply(1, true, 0)) ==
      (Plainly(0, 1, 0, Leader, TWO, 1, 0, [1, 2, 2, 3, 1], [0, 1, 1, 2, 0]), 2)
    ensures AppendReplied(Plainly(0, 1, 0, Leader, TWO, 1, 0, [1, 2, 2, 3, 1], [0, 1, 1, 2, 0]), 4, Both(), 2,
                          AppendReply(1, true, 0)) ==
      (Plainly(0, 1, 0, Leader, TWO, 2, 0, [1, 2, 2, 3, 3], [0, 1, 1, 2, 2]), 0)
  {
    hide AppendReplied;
    var n := Plainly(0, 1, 0, Leader, TWO, 1, 0, [1, 2, 2, 1, 1], [0, 1, 1, 0, 0]);
    var m := Plainly(0, 1, 0, Leader, TWO, 1, 0, [1, 2, 2, 3, 1], [0, 1, 1, 2, 0]);
    Counted(n, 3, Both(), 1);
    assert n.nextIndex[3 := 3] == m.nextIndex && n.matchIndex[3 := 2] == m.matchIndex;
    Counted(m, 4, Both(), 2);
    assert m.nextIndex[4 := 3] == [1, 2, 2, 3, 3] && m.matchIndex[4 := 2] == [0, 1, 1, 2, 2];
  }

  lemma FollowerTold()
    ensures var c := At(5, RUN, 14);
      && Tidy(c) && |c.re.beats| == 2
      && c.nodes == [Plainly(0, 1, 0, Leader, TWO, 1, 0, [1, 2, 2, 1, 1], [0, 1, 1, 0, 0]),
                     Plainly(1, 1, 0, Follower, TWO, 1, 0, ZEROS, ZEROS), Calm(2, 1, 0, ONE),
                     Calm(3, 0, -1, []), Calm(4, 0, -1, [])]
      && var b := c.re.beats[1];
      && b.leader == 0 && 3 in b.sent && b.sent[3] == Both() && 4 in b.sent && b.sent[4] == Both()
      && 1 in c.re.counts && c.re.counts[1] == 1
      && AppendKey(1, 3) !in c.re.replies && AppendKey(1, 4) !in c.re.replies
  {
    hide At, Step, Wf, AppendEntries;
    assert |RUN| == 18 && RUN[13] == DeliverAppend(AppendKey(1, 1));
    AtNext(5, RUN, 13);
    hide RUN;
    SecondSent();
    SecondTaken(1);
    hide ONE, TWO, Rest, Both;
    DeliverFact(At(5, RUN, 13), AppendKey(1, 1));
  }

  lemma SecondHeld()
    ensures var c := At(5, RUN, 16);
      && Tidy(c) && |c.re.beats| == 2
      && c.nodes == [Plainly(0, 1, 0, Leader, TWO, 1, 0, [1, 2, 2, 3, 1], [0, 1, 1, 2, 0]),
                     Plainly(1, 1, 0, Follower, TWO, 1, 0, ZEROS, ZEROS), Calm(2, 1, 0, ONE),
                     Plainly(3, 1, -1, Follower, TWO, 1, 0, ZEROS, ZEROS), Calm(4, 0, -1, [])]
      && var b := c.re.beats[1];
      && b.leader == 0 && 4 in b.sent && b.sent[4] == Both()
      && 1 in c.re.counts && c.re.counts[1] == 2 && AppendKey(1, 4) !in c.re.replies
  {
    hide At, Step, Wf, Tidy, AppendEntries, AppendReplied;
    assert |RUN| == 18 && RUN[14] == DeliverAppend(AppendKey(1, 3)) && RUN[15] == AppendAnswered(AppendKey(1, 3));
    AtNext(5, RUN, 14);
    AtNext(5, RUN, 15);
    hide RUN;
    FollowerTold();
    SecondTaken(3);
    SecondCounted();
    hide ONE, TWO, Rest, Both;
    Exchange(At(5, RUN, 14), 1, 3);
  }

  lemma SecondCommitted()
    ensures var c := At(5, RUN, 18);
      && Tidy(c) && |c.re.beats| == 2
      && c.nodes == [Plainly(0, 1, 0, Leader, TWO, 2, 0, [1, 2, 2, 3, 3], [0, 1, 1, 2, 2]),
                     Plainly(1, 1, 0, Follower, TWO, 1, 0, ZEROS, ZEROS), Calm(2, 1, 0, ONE),
                     Plainly(3, 1, -1, Follower, TWO, 1, 0, ZEROS, ZEROS),
                     Plainly(4, 1, -1, Follower, TWO, 1, 0, ZEROS, ZEROS)]
  {
    hide At, Step, Wf, Tidy, AppendEntries, AppendReplied;
    assert |RUN| == 18 && RUN[16] == DeliverAppend(AppendKey(1, 4)) && RUN[17] == AppendAnswered(AppendKey(1, 4));
    AtNext(5, RUN, 16);
    AtNext(5, RUN, 17);
    hide RUN;
    SecondHeld();
    SecondTaken(4);
    SecondCounted();
    hide ONE, TWO, Rest, Both;
    Exchange(At(5, RUN, 16), 1, 4);
  }

  // ---------- the servers ----------

  const IMAGE := Image([("k", "second")], map["c" := 2])

  /** The rest of the run. Server 0 carries out both writes and takes a snapshot; server 1 carries out one and
      is handed that snapshot. */
  const TAIL: seq<Happening> := [
    Raft(Apply(1)), Raft(Apply(0)), PushCommand(0), PushCommand(0), Serve(0, None), Serve(0, Some(IMAGE)),
    GiveSnapshot(0), PushCommand(1), Serve(1, None),
    Raft(HeartBeat(0)), Raft(SendSnapshot(0, 1)), Raft(DeliverInstall(0)), PushLoad(1, 0), Serve(1, None)]

  /** The service after k happenings of the rest. */
  ghost function So(k: nat): Service
    requires k <= |TAIL|
  {
    Play(5, Only(RUN) + TAIL[..k])
  }

  lemma SoNext(k: nat)
    requires k < |TAIL|
    ensures So(k + 1) == Next(So(k), TAIL[k])
    ensures Trace(5, Only(RUN) + TAIL[..k + 1]) == Trace(5, Only(RUN) + TAIL[..k]) + EventOf(So(k), TAIL[k])
  {
    hide Next, EventOf, Play, Trace;
    var hs := Only(RUN) + TAIL[..k];
    assert Only(RUN) + TAIL[..k + 1] == hs + [TAIL[k]];
    Onwards(5, hs, TAIL[k]);
  }

  const FRESH := Server(Progress(EMPTY, 0), [], [], [], None, None, 0)
  const AFTER_ONE := State(map["k" := "first"], map["c" := 1])
  const AFTER_TWO := State(map["k" := "second"], map["c" := 2])

  function Nodes(leader: Node, follower: Node): seq<Node>
  {
    [leader, follower, Calm(2, 1, 0, ONE), Plainly(3, 1, -1, Follower, TWO, 1, 0, ZEROS, ZEROS),
     Plainly(4, 1, -1, Follower, TWO, 1, 0, ZEROS, ZEROS)]
  }

  function Leading(applied: nat): Node
  {
    Plainly(0, 1, 0, Leader, TWO, 2, applied, [1, 2, 2, 3, 3], [0, 1, 1, 2, 2])
  }

  function Following(applied: nat): Node { Plainly(1, 1, 0, Follower, TWO, 1, applied, ZEROS, ZEROS) }

  /** Node 0 behind its snapshot of both writes. */
  function Cut(): Node
  {
    Node(0, 5, 1, 0, Leader, [], 2, 1, 2, 2, [1, 2, 2, 3, 3], [0, 1, 1, 2, 2], Disk(1, 0, 2, 1, []), None)
  }

  /** The cluster and the two servers that matter. */
  ghost predicate Looks(s: Service, leader: Node, follower: Node, v: Server, w: Server)
  {
    && Fit(s) && Tidy(s.c) && s.c.nodes == Nodes(leader, follower)
    && |s.servers| == 5 && s.servers[0] == v && s.servers[1] == w
  }

  lemma Opened()
    ensures Looks(So(0), Leading(0), Following(0), FRESH, FRESH) && So(0).parcels == []
    ensures Trace(5, Only(RUN)) == RUN
  {
    hide Wf, Tidy, Exec, Init, Play, Trace;
    assert |RUN| == 18 && forall k | 0 <= k < 18 :: Silent(RUN[k]);
    assert Only(RUN) + TAIL[..0] == Only(RUN) && RUN[..18] == RUN;
    SilentRun(5, RUN);
    SecondCommitted();
  }

  lemma Applied1()
    ensures Looks(So(1), Leading(0), Following(1), FRESH, FRESH.(outbox := [ApplyMsg(1, FIRST)])) && So(1).parcels == []
  {
    hide Wf, Tidy, Play, Step, ApplyLogs;
    assert TAIL[0] == Raft(Apply(1));
    SoNext(0);
    Opened();
    hide RUN, TAIL, So;
    ValidAt(So(0).c, 1);
    ApplyFact(So(0).c, 1);
    FollowerApplies();
  }

  lemma FollowerApplies()
    requires Following(0).Valid()
    ensures ApplyLogs(Following(0)) == (Following(1), [ApplyMsg(1, FIRST)])
  {
    assert ApplyLogs(Following(0)).1 == [ApplyMsg(1, FIRST)];
  }

  lemma LeaderApplies()
    requires Leading(0).Valid()
    ensures ApplyLogs(Leading(0)) == (Leading(2), [ApplyMsg(1, FIRST), ApplyMsg(2, SECOND)])
  {
    assert ApplyLogs(Leading(0)).1 == [ApplyMsg(1, FIRST), ApplyMsg(2, SECOND)];
  }

  lemma Applied2()
    ensures Looks(So(2), Leading(2), Following(1), FRESH.(outbox := [ApplyMsg(1, FIRST), ApplyMsg(2, SECOND)]),
                  FRESH.(outbox := [ApplyMsg(1, FIRST)])) && So(2).parcels == []
  {
    hide Wf, Tidy, Play, Step, ApplyLogs;
    assert TAIL[1] == Raft(Apply(0));
    SoNext(1);
    Applied1();
    hide RUN, TAIL, So;
    ValidAt(So(1).c, 0);
    ApplyFact(So(1).c, 0);
    LeaderApplies();
  }

  /** Server 0 takes both commands in. */
  lemma PushedOne()
    ensures Looks(So(3), Leading(2), Following(1),
                  FRESH.(channel := [Command(ApplyMsg(1, FIRST))], outbox := [ApplyMsg(2, SECOND)]),
                  FRESH.(outbox := [ApplyMsg(1, FIRST)])) && So(3).parcels == []
  {
    hide Wf, Tidy, Play;
    assert TAIL[2] == PushCommand(0);
    SoNext(2);
    Applied2();
    hide RUN, TAIL, So;
  }

  lemma Pushed()
    ensures Looks(So(4), Leading(2), Following(1),
                  FRESH.(channel := [Command(ApplyMsg(1, FIRST)), Command(ApplyMsg(2, SECOND))]),
                  FRESH.(outbox := [ApplyMsg(1, FIRST)])) && So(4).parcels == []
  {
    hide Wf, Tidy, Play;
    assert TAIL[3] == PushCommand(0);
    SoNext(3);
    PushedOne();
    hide RUN, TAIL, So;
  }

  lemma OneWrite()
    ensures Handle(Progress(EMPTY, 0), Command(ApplyMsg(1, FIRST))) == Progress(AFTER_ONE, 0)
    ensures Handle(Progress(AFTER_ONE, 0), Command(ApplyMsg(2, SECOND))) == Progress(AFTER_TWO, 0)
  {
  }

  lemma Shows()
    ensures CanShow(Progress(AFTER_ONE, 0), Command(ApplyMsg(2, SECOND)), Some(IMAGE))
  {
    OneWrite();
    assert Entries.ToMap(IMAGE.dump) == map["k" := "second"] by {
      assert IMAGE.dump[..0] == [];
    }
  }

  lemma BothServed()
    ensures Looks(So(6), Leading(2), Following(1),
                  Server(Progress(AFTER_TWO, 0), [], [], [], Some(Offer(2, IMAGE)), None, 2),
                  FRESH.(outbox := [ApplyMsg(1, FIRST)])) && So(6).parcels == []
  {
    hide Wf, Tidy, Play, Handle, CanShow;
    assert TAIL[4] == Serve(0, None) && TAIL[5] == Serve(0, Some(IMAGE));
    SoNext(4);
    SoNext(5);
    Pushed();
    hide RUN, TAIL, So, IMAGE;
    OneWrite();
    Shows();
    ShowsNothing(FRESH.progress, Command(ApplyMsg(1, FIRST)));
  }

  lemma ShowsNothing(p: Progress, h: Handed)
    ensures CanShow(p, h, None)
  {
  }

  lemma LeaderSnapshots()
    requires Leading(2).commitIndex <= Leading(2).Last()
    ensures Snapshot(Leading(2), 2) == Cut()
  {
  }

  lemma SnapshotGiven()
    ensures Looks(So(7), Cut(), Following(1), Server(Progress(AFTER_TWO, 0), [], [], [], None, Some(IMAGE), 2),
                  FRESH.(outbox := [ApplyMsg(1, FIRST)])) && So(7).parcels == []
    ensures EventOf(So(6), TAIL[6]) == [TakeSnapshot(0, 2)]
  {
    hide Wf, Tidy, Play, Step, Snapshot;
    assert TAIL[6] == GiveSnapshot(0);
    SoNext(6);
    BothServed();
    hide RUN, TAIL, So, IMAGE;
    SnapshotFact(So(6).c, 0, 2);
    LeaderSnapshots();
  }

  const HOLDING := Server(Progress(AFTER_ONE, 0), [], [], [], None, None, 1)
  const AHEAD := Server(Progress(AFTER_TWO, 0), [], [], [], None, Some(IMAGE), 2)

  lemma FirstPushed()
    ensures Looks(So(8), Cut(), Following(1), AHEAD, FRESH.(channel := [Command(ApplyMsg(1, FIRST))]))
    ensures So(8).parcels == []
  {
    hide Wf, Tidy, Play;
    assert TAIL[7] == PushCommand(1);
    SoNext(7);
    SnapshotGiven();
    hide RUN, TAIL, So, IMAGE;
  }

  lemma FirstServed()
    ensures Looks(So(9), Cut(), Following(1), AHEAD, HOLDING) && So(9).parcels == []
  {
    hide Wf, Tidy, Play, Handle, CanShow;
    assert TAIL[8] == Serve(1, None);
    SoNext(8);
    FirstPushed();
    hide RUN, TAIL, So, IMAGE, AHEAD;
    OneWrite();
    ShowsNothing(FRESH.progress, Command(ApplyMsg(1, FIRST)));
  }

  /** A heartbeat starts a thread for a peer it has to send a snapshot to. */
  lemma ThreadFact(c: Cluster, i: nat, p: nat)
    requires Wf(c) && Tidy(c) && Alive(c, i) && c.nodes[i].status == Leader && c.nodes[i].Valid() && InReach(c.nodes[i])
    requires p in Others(c.nodes[i]) && Served(c.nodes[i], p) && NeedsSnapshot(c.nodes[i], p)
    ensures var c' := Step(c, HeartBeat(i));
      Tidy(c') && c'.nodes == c.nodes && (i, p) in c'.sn.threads && c'.sn.installs == c.sn.installs
  {
    hide WfNodes, WfVotes, WfInstalls, BeatOf, Contiguous;
    NoBeatFault(c.nodes[i], 0);
  }

  lemma SendFact(c: Cluster, i: nat, p: nat)
    requires Wf(c) && Tidy(c) && Alive(c, i) && (i, p) in c.sn.threads
    ensures var c' := Step(c, SendSnapshot(i, p));
      && Tidy(c') && c'.nodes == c.nodes
      && c'.sn.installs == c.sn.installs + [InstallCall(i, p, InstallArgsOf(c.nodes[i]))]
      && c'.sn.replies == c.sn.replies
  {
    hide Wf;
  }

  lemma InstallFact(c: Cluster, k: nat)
    requires Wf(c) && Tidy(c) && CanDeliverInstall(c, k)
    ensures var c', call := Step(c, DeliverInstall(k)), c.sn.installs[k];
      Tidy(c') && c'.nodes == c.nodes[call.peer := InstallSnapshot(c.nodes[call.peer], call.args).0]
  {
    hide Wf, InstallSnapshot;
  }

  lemma Reachable()
    requires Cut().Valid()
    ensures InReach(Cut()) && 1 in Others(Cut()) && Served(Cut(), 1) && NeedsSnapshot(Cut(), 1)
  {
  }

  lemma Beaten()
    ensures Looks(So(10), Cut(), Following(1), AHEAD, HOLDING) && So(10).parcels == []
    ensures (0, 1) in So(10).c.sn.threads && So(10).c.sn.installs == []
  {
    hide Tidy, Play, Step, WfNodes, WfVotes, WfBeats;
    assert TAIL[9] == Raft(HeartBeat(0));
    SoNext(9);
    FirstServed();
    hide RUN, TAIL, So, IMAGE, HOLDING, AHEAD;
    ValidAt(So(9).c, 0);
    Reachable();
    ThreadFact(So(9).c, 0, 1);
  }

  lemma Sent()
    ensures Looks(So(11), Cut(), Following(1), AHEAD, HOLDING) && So(11).parcels == [Some(IMAGE)]
    ensures So(11).c.sn.installs == [InstallCall(0, 1, InstallArgs(1, 0, 2, 1))] && 0 !in So(11).c.sn.replies
  {
    hide Tidy, Play, Step, WfNodes, WfVotes, WfBeats;
    assert TAIL[10] == Raft(SendSnapshot(0, 1));
    SoNext(10);
    Beaten();
    hide RUN, TAIL, So, IMAGE, HOLDING;
    SendFact(So(10).c, 0, 1);
    assert InstallArgsOf(Cut()) == InstallArgs(1, 0, 2, 1);
  }

  /** Node 1 with the snapshot. */
  function Replaced(): Node
  {
    Node(1, 5, 1, 0, Follower, [], 2, 1, 2, 2, ZEROS, ZEROS, Disk(1, 0, 2, 1, []), None)
  }

  lemma FollowerInstalls()
    ensures InstallSnapshot(Following(1), InstallArgs(1, 0, 2, 1)).0 == Replaced()
    ensures Takes(Following(1), InstallArgs(1, 0, 2, 1))
  {
  }

  lemma TakenOver()
    ensures Looks(So(12), Cut(), Replaced(), AHEAD,
                  HOLDING.(loads := [Load(2, Some(IMAGE))], saved := Some(IMAGE)))
  {
    hide Tidy, Play, Step, Wf, InstallSnapshot, Takes;
    assert TAIL[11] == Raft(DeliverInstall(0));
    SoNext(11);
    Sent();
    hide RUN, TAIL, So, IMAGE, AHEAD;
    InstallFact(So(11).c, 0);
    FollowerInstalls();
  }

  const STALE := Server(Progress(State(map["k" := "first"], map["c" := 2]), 2), [], [], [], None, Some(IMAGE), 2)

  lemma LoadedOver()
    ensures Handle(Progress(AFTER_ONE, 0), Load(2, Some(IMAGE))) == STALE.progress
  {
    var dump := IMAGE.dump;
    assert dump[..0] == [] && Entries.Loaded(AFTER_ONE.table, dump[..0]) == AFTER_ONE.table;
    assert Entries.Loaded(AFTER_ONE.table, dump) == AFTER_ONE.table;
  }

  lemma LoadPushed()
    ensures Looks(So(13), Cut(), Replaced(), AHEAD,
                  HOLDING.(channel := [Load(2, Some(IMAGE))], saved := Some(IMAGE)))
  {
    hide Tidy, Play, Wf;
    assert TAIL[12] == PushLoad(1, 0);
    SoNext(12);
    TakenOver();
    hide RUN, TAIL, So, IMAGE, AHEAD;
  }

  lemma LoadServed()
    ensures Looks(So(14), Cut(), Replaced(), AHEAD, STALE)
    ensures CanServe(So(13), 1)
  {
    hide Tidy, Play, Wf, Handle, CanShow;
    assert TAIL[13] == Serve(1, None);
    SoNext(13);
    LoadPushed();
    hide RUN, TAIL, So, AHEAD;
    LoadedOver();
    ShowsNothing(HOLDING.progress, Load(2, Some(IMAGE)));
    hide IMAGE;
  }

  /** Both servers have come to index 2; server 0 holds the second value and server 1 the first. */
  lemma TablesDiffer()
    ensures var s := So(14);
      && |s.servers| == 5 && s.servers[0].position == s.servers[1].position == 2
      && s.servers[0].progress.state == AFTER_TWO
      && s.servers[1].progress.state == State(map["k" := "first"], map["c" := 2])
      && s.servers[0].progress.state != s.servers[1].progress.state
  {
    hide So, Wf, Tidy;
    LoadServed();
    assert AFTER_TWO.table["k"] != STALE.progress.state.table["k"];
  }

  // ---------- the run is clean, and prompt ----------

  lemma CleanMore(n: nat, events: seq<Event>, e: Event)
    requires CleanRun(n, events) && Clean(Exec(Init(n), events), e)
    ensures CleanRun(n, events + [e])
  {
    hide Clean, Exec, Init;
    var all := events + [e];
    forall k | 0 <= k < |all| ensures Clean(At(n, all, k), all[k]) {
      assert all[..k] == events[..k];
      assert k < |events| ==> Clean(At(n, events, k), events[k]);
      assert k == |events| ==> events[..k] == events;
    }
  }

  /** A delivery that reaches the end of the follower's log. */
  lemma CleanDelivery(c: Cluster, k: AppendKey)
    requires CanDeliverAppend(c, k) ==> c.re.beats[k.round].sent[k.peer].End() >= c.nodes[k.peer].Last()
    ensures Clean(c, DeliverAppend(k))
  {
  }

  lemma RunClean()
    ensures CleanRun(5, RUN)
  {
    hide At, Wf, Tidy, Clean;
    forall k | 0 <= k < |RUN| ensures Clean(At(5, RUN, k), RUN[k]) {
      if RUN[k].DeliverAppend? {
        DeliveryClean(k);
      } else {
        OtherClean(At(5, RUN, k), RUN[k]);
      }
    }
  }

  lemma OtherClean(c: Cluster, e: Event)
    requires !e.DeliverAppend? && !e.DeliverInstall?
    ensures Clean(c, e)
  {
  }

  lemma DeliveryClean(k: nat)
    requires k < |RUN| && RUN[k].DeliverAppend?
    ensures Clean(At(5, RUN, k), RUN[k])
  {
    hide At, Wf, Tidy, Clean;
    assert k in {7, 9, 13, 14, 16};
    if k == 7 {
      FirstSent();
    } else if k == 9 {
      FirstHeld();
    } else if k == 13 {
      SecondSent();
    } else if k == 14 {
      FollowerTold();
    } else {
      SecondHeld();
    }
    CleanDelivery(At(5, RUN, k), RUN[k].append);
  }

  lemma {:induction false} TailClean(k: nat)
    requires k <= |TAIL|
    ensures CleanRun(5, Trace(5, Only(RUN) + TAIL[..k]))
  {
    hide CleanRun, So, Trace, Clean, Exec, Init, Wf, Looks;
    if k == 0 {
      Opened();
      RunClean();
      assert Only(RUN) + TAIL[..0] == Only(RUN);
    } else {
      TailClean(k - 1);
      SoNext(k - 1);
      SoCluster(k - 1);
      var events, e := Trace(5, Only(RUN) + TAIL[..k - 1]), EventOf(So(k - 1), TAIL[k - 1]);
      if e == [] {
        assert events + e == events;
      } else {
        TailEventClean(k - 1);
        CleanMore(5, events, e[0]);
      }
    }
  }

  lemma SoCluster(k: nat)
    requires k <= |TAIL|
    ensures So(k).c == Exec(Init(5), Trace(5, Only(RUN) + TAIL[..k]))
  {
    hide Wf, Exec, Init, Trace, Play;
    TraceCluster(5, Only(RUN) + TAIL[..k]);
  }

  lemma TailEventClean(k: nat)
    requires k < |TAIL| && EventOf(So(k), TAIL[k]) != []
    ensures |EventOf(So(k), TAIL[k])| == 1 && Clean(So(k).c, EventOf(So(k), TAIL[k])[0])
  {
    hide So, Wf, Tidy, Clean;
    if k == 11 {
      TailInstall();
      Sent();
      InstallClean(So(11).c);
    } else {
      assert TAIL[k].Raft? ==> !TAIL[k].e.DeliverAppend? && !TAIL[k].e.DeliverInstall?;
      OtherClean(So(k).c, EventOf(So(k), TAIL[k])[0]);
    }
  }

  lemma TailInstall()
    ensures TAIL[11] == Raft(DeliverInstall(0))
  {
  }

  lemma InstallClean(c: Cluster)
    requires |c.nodes| == 5 && c.nodes[1] == Following(1)
    requires c.sn.installs == [InstallCall(0, 1, InstallArgs(1, 0, 2, 1))]
    ensures Clean(c, DeliverInstall(0))
  {
  }

  lemma PromptAlways()
    ensures HandOver.Prompt(5, Only(RUN) + TAIL)
  {
    hide HandOver.PromptAt;
    var hs := Only(RUN) + TAIL;
    forall k | 0 <= k < |hs| ensures HandOver.PromptAt(5, hs, k) {
      if k < |RUN| {
        SilentPrompt(hs, k);
      } else {
        TailPrompt(k - |RUN|);
      }
    }
  }

  lemma SilentPrompt(hs: seq<Happening>, k: nat)
    requires hs == Only(RUN) + TAIL && k < |RUN|
    ensures HandOver.PromptAt(5, hs, k)
  {
    hide Play;
    assert Silent(RUN[k]) && hs[k] == Raft(RUN[k]);
  }

  lemma TailPrompt(j: nat)
    requires j < |TAIL|
    ensures HandOver.PromptAt(5, Only(RUN) + TAIL, |RUN| + j)
  {
    hide So, Play, Wf, Tidy, HandOver.PromptNext;
    TailPromptNext(j);
    PromptHere(j);
  }

  lemma PromptHere(j: nat)
    requires j < |TAIL| && HandOver.PromptNext(So(j), TAIL[j])
    ensures HandOver.PromptAt(5, Only(RUN) + TAIL, |RUN| + j)
  {
    hide Play, HandOver.PromptNext;
    assert (Only(RUN) + TAIL)[..|RUN| + j] == Only(RUN) + TAIL[..j];
  }

  lemma TailPromptNext(j: nat)
    requires j < |TAIL|
    ensures HandOver.PromptNext(So(j), TAIL[j])
  {
    hide So, Wf, Tidy;
    if j == 0 {
      Opened();
    } else if j == 1 {
      Applied1();
    } else if j == 2 {
      Applied2();
    } else if j == 3 {
      PushedOne();
    } else if j == 7 {
      SnapshotGiven();
    } else if j == 11 {
      Sent();
    }
  }

  // ---------- what it shows ----------

  /** A clean run, no snapshot overtaken on its way, in which two servers that have come equally far hold
      different tables; so some snapshot loaded does not fit. */
  lemma ServersDisagree()
    ensures var hs := Only(RUN) + TAIL;
      && CleanRun(5, Trace(5, hs)) && HandOver.Prompt(5, hs) && |Play(5, hs).servers| == 5
      && Play(5, hs).servers[0].position == Play(5, hs).servers[1].position == 2
      && Play(5, hs).servers[0].progress.state == State(map["k" := "second"], map["c" := 2])
      && Play(5, hs).servers[1].progress.state == State(map["k" := "first"], map["c" := 2])
      && !Replicas.AllProper(5, hs) && !HandOver.LoadsFit(5, hs)
  {
    hide CleanRun, Trace, Play, Wf, Tidy, HandOver.Prompt, HandOver.LoadsFit, Replicas.AllFit, Replicas.AllProper;
    var hs := Only(RUN) + TAIL;
    assert |TAIL| == 14 && TAIL[..14] == TAIL && hs[..|hs|] == hs;
    hide RUN, TAIL;
    TailClean(14);
    PromptAlways();
    TablesDiffer();
    if Replicas.AllFit(5, hs) {
      Replicas.ReplicasAgree(5, hs, |hs|, |hs|, 0, 1);
    }
    Replicas.ProperIffFits(5, hs);
    HandOver.ProperIffLoadsFit(5, hs);
  }
}
