/** The heartbeat/reject loop between a leader and one follower while nothing else happens to either:
    it ends in success within nextIndex + 2 rounds when the two agree at the follower's snapshot
    boundary, and never when they agree nowhere. */
module CatchUp {
  import opened RaftTypes
  import opened RaftNode
  import opened NodeInvariants
  import opened EntryIdentity

  datatype Pair = Pair(leader: Node, follower: Node)
  {
    /** What the leader would try next for this follower. */
    function Next(): int
      requires follower.id < |leader.nextIndex|
    {
      leader.nextIndex[follower.id]
    }
  }

  /** A leader and a follower of no newer term, both running; what their logs hold is known. */
  ghost predicate Still(s: Pair, created: map<(nat, nat), Op>)
  {
    && s.leader.Valid() && s.follower.Valid() && s.leader.halted.None? && s.follower.halted.None?
    && s.leader.status == Leader && s.follower.term <= s.leader.term
    && s.follower.id < s.leader.peers && s.follower.id != s.leader.id
    && 1 <= s.Next() <= s.leader.Last() + 1
    && AllKnown(s.leader.log, created) && AllKnown(s.follower.log, created)
  }

  /** One heartbeat with its reply; `count` is what the heartbeat's counter stands at by then. */
  function Round(s: Pair, count: nat): Pair
    requires s.leader.Valid() && s.follower.id < s.leader.peers
  {
    var (n, m, p) := (s.leader, s.follower, s.follower.id);
    if BeatFault(n, p).Some? then s.(leader := n.Halt(BeatFault(n, p).value))
    else if NeedsSnapshot(n, p) then
      var (m', term) := InstallSnapshot(m, InstallArgsOf(n));
      Pair(SnapshotReplied(n, p, InstallArgsOf(n), term), m')
    else
      var args := AppendArgsFor(n, p);
      var (m', reply) := AppendEntries(m, args);
      if m'.halted.Some? then Pair(n, m') else Pair(AppendReplied(n, p, args, count, reply).0, m')
  }

  /** The rounds one after the other, as long as the leader is there to start them. */
  function Rounds(s: Pair, counts: seq<nat>): Pair
    decreases counts
  {
    if counts == [] || !s.leader.Valid() || s.follower.id >= s.leader.peers || s.leader.halted.Some? then s
    else Rounds(Round(s, counts[0]), counts[1..])
  }

  /** The follower holds the leader's last entry, and the leader knows. */
  predicate InStep(s: Pair)
  {
    && s.leader.Valid() && s.follower.id < s.leader.peers
    && s.Next() == s.leader.Last() + 1 && s.leader.matchIndex[s.follower.id] == s.leader.Last()
    && s.follower.snapIndex <= s.leader.Last() <= s.follower.Last()
    && s.follower.TermAt(s.leader.Last()) == s.leader.LastTerm()
  }

  /** The leader has the follower's last snapshotted entry, unless its own snapshot reaches further. */
  predicate AgreeAtBoundary(s: Pair)
  {
    || s.leader.snapIndex > s.follower.snapIndex
    || (s.follower.snapIndex <= s.leader.Last() && s.leader.TermAt(s.follower.snapIndex) == s.follower.snapTerm)
  }

  /** The next request would be accepted. */
  predicate WillMatch(s: Pair)
    requires s.leader.Valid() && s.follower.id < s.leader.peers && 1 <= s.Next() <= s.leader.Last() + 1
  {
    var prev := s.Next() - 1;
    && s.leader.snapIndex <= prev && s.follower.snapIndex <= prev <= s.follower.Last()
    && s.leader.TermAt(prev) == s.follower.TermAt(prev)
  }

  /** At most this many more rounds. */
  function Budget(s: Pair): nat
    requires s.leader.Valid() && s.follower.id < s.leader.peers && 1 <= s.Next() <= s.leader.Last() + 1
  {
    if InStep(s) then 0
    else if WillMatch(s) then 1
    else if s.Next() <= s.leader.snapIndex then 3
    else if s.Next() <= s.follower.snapIndex then 2
    else s.Next() + 2
  }

  /** What a round leaves as it was: who they are, the leader's log, and that all is well. */
  ghost predicate Moves(s: Pair, s': Pair, created: map<(nat, nat), Op>)
  {
    Still(s', created) && s'.leader.log == s.leader.log && s'.leader.snapIndex == s.leader.snapIndex
    && s'.leader.snapTerm == s.leader.snapTerm
  }

  // ---------- one round, case by case ----------

  lemma SnapshotRound(s: Pair, count: nat, created: map<(nat, nat), Op>)
    requires Still(s, created) && AgreeAtBoundary(s) && s.Next() <= s.leader.snapIndex
    ensures var s' := Round(s, count);
      && Moves(s, s', created) && AgreeAtBoundary(s') && s'.Next() == s.leader.snapIndex + 1
      && (WillMatch(s') || s'.Next() <= s'.follower.snapIndex)
  {
    var m' := InstallSnapshot(s.follower, InstallArgsOf(s.leader)).0;
    assert AllKnown(m'.log, created);
  }

  lemma MatchRound(s: Pair, count: nat, created: map<(nat, nat), Op>)
    requires Still(s, created) && WillMatch(s)
    ensures var s' := Round(s, count);
      && Moves(s, s', created) && InStep(s')
      && s'.follower.snapIndex == s.follower.snapIndex && s'.follower.snapTerm == s.follower.snapTerm
  {
    hide Round, AppendEntries, AppendReplied, AppendArgsFor, Contiguous, AllKnown, Accepts;
    var n, m, p := s.leader, s.follower, s.follower.id;
    var args := AppendArgsFor(n, p);
    RequestWhole(n, p, created);
    RoundOutcome(s, count);
    Matches(m, args);
    Taken(m, args, created);
    Acknowledged(n, p, args, count, AppendReply(n.term, true, 0));
  }

  lemma Matches(m: Node, args: AppendArgs)
    requires m.term <= args.term && m.snapIndex <= args.prevIndex <= m.Last()
    requires m.TermAt(args.prevIndex) == args.prevTerm
    ensures Accepts(m, args)
  {
  }

  /** A round is a request, its delivery and its answer, when no snapshot is due. */
  lemma RoundOutcome(s: Pair, count: nat)
    requires s.leader.Valid() && s.follower.id < s.leader.peers && s.leader.snapIndex < s.Next() <= s.leader.Last() + 1
    ensures var args := AppendArgsFor(s.leader, s.follower.id);
      var (m', reply) := AppendEntries(s.follower, args);
      m'.halted.None? ==> Round(s, count) == Pair(AppendReplied(s.leader, s.follower.id, args, count, reply).0, m')
  {
    hide AppendEntries, AppendReplied, AppendArgsFor;
  }

  lemma RequestWhole(n: Node, p: nat, created: map<(nat, nat), Op>)
    requires n.Valid() && p < n.peers && n.snapIndex < n.nextIndex[p] <= n.Last() + 1 && AllKnown(n.log, created)
    ensures var args := AppendArgsFor(n, p);
      && args.prevIndex == n.nextIndex[p] - 1 && args.term == n.term && args.prevTerm == n.TermAt(args.prevIndex)
      && args.End() == n.Last() && Contiguous(args.entries, args.prevIndex) && AllKnown(args.entries, created)
      && EndTerm(args) == n.LastTerm()
  {
  }

  lemma Taken(m: Node, args: AppendArgs, created: map<(nat, nat), Op>)
    requires m.Valid() && m.halted.None? && Accepts(m, args) && Contiguous(args.entries, args.prevIndex)
    requires AllKnown(m.log, created) && AllKnown(args.entries, created)
    ensures var (m', reply) := AppendEntries(m, args);
      && m'.Valid() && m'.halted.None? && m'.id == m.id && m'.term == args.term && AllKnown(m'.log, created)
      && m'.snapIndex == m.snapIndex <= args.End() <= m'.Last() && m'.snapTerm == m.snapTerm
      && m'.TermAt(args.End()) == EndTerm(args)
      && reply == AppendReply(args.term, true, 0)
  {
    NoClash(m.log, m.snapIndex, args.prevIndex - m.snapIndex, args.entries, created);
    AbsorbKeeps(Followed(m, args), args);
    TakenEnd(m, args);
    hide Splice, Contiguous, AllKnown, Clashes;
    TakenShape(m, args);
  }

  lemma TakenShape(m: Node, args: AppendArgs)
    requires m.halted.None? && Accepts(m, args) && !Clashes(m.log, args.prevIndex - m.snapIndex, args.entries)
    ensures var (m', reply) := AppendEntries(m, args);
      && m' == Absorb(Followed(m, args), args).Persist() && reply == AppendReply(args.term, true, 0)
      && m'.halted.None? && m'.id == m.id && m'.term == args.term && m'.snapIndex == m.snapIndex
        && m'.snapTerm == m.snapTerm
      && m'.log == Splice(m.log, args.prevIndex - m.snapIndex, args.entries)
  {
    hide Splice, Clashes;
  }

  lemma TakenEnd(m: Node, args: AppendArgs)
    requires m.Valid() && InWindow(m, args) && m.TermAt(args.prevIndex) == args.prevTerm
    ensures var log := Splice(m.log, args.prevIndex - m.snapIndex, args.entries);
      && args.End() - m.snapIndex <= |log|
      && EndTerm(args) == if args.End() == m.snapIndex then m.snapTerm else log[args.End() - m.snapIndex - 1].logTerm
  {
  }

  lemma Acknowledged(n: Node, p: nat, args: AppendArgs, count: nat, reply: AppendReply)
    requires n.Valid() && p < n.peers && n.status == Leader && args.End() == n.Last()
    requires reply.success && reply.term == n.term
    ensures var n' := AppendReplied(n, p, args, count, reply).0;
      && n'.Valid() && n'.log == n.log && n'.snapIndex == n.snapIndex && n'.snapTerm == n.snapTerm
      && n'.matchIndex[p] == n.Last() && n'.nextIndex[p] == n.Last() + 1
      && n'.status == Leader && n'.term == n.term && n'.halted == n.halted && n'.id == n.id && n'.peers == n.peers
  {
  }

  /** A request below the follower's snapshot is sent up to it. */
  lemma BelowSnapshotRound(s: Pair, count: nat, created: map<(nat, nat), Op>)
    requires Still(s, created) && s.leader.snapIndex < s.Next() <= s.follower.snapIndex
    ensures var s' := Round(s, count);
      && s'.leader == s.leader.(nextIndex := s'.leader.nextIndex) && |s'.leader.nextIndex| == s.leader.peers
      && s'.follower.id == s.follower.id && s'.Next() == s.follower.snapIndex + 1
      && s'.follower.Valid() && s'.follower.halted.None? && s'.follower.term == s.leader.term
      && s'.follower.log == s.follower.log && s'.follower.snapIndex == s.follower.snapIndex
      && s'.follower.snapTerm == s.follower.snapTerm
  {
    var n, m, p := s.leader, s.follower, s.follower.id;
    var args := AppendArgsFor(n, p);
    RequestWhole(n, p, created);
    Refused(m, args);
    var (m', reply) := AppendEntries(m, args);
    Redirected(n, p, args, count, reply);
    assert Round(s, count) == Pair(AppendReplied(n, p, args, count, reply).0, m');
  }

  /** A short log or a mismatch strictly lowers nextIndex and keeps it at 1 or more. */
  lemma RejectRound(s: Pair, count: nat, created: map<(nat, nat), Op>)
    requires Still(s, created) && !WillMatch(s)
    requires s.leader.snapIndex < s.Next() && s.follower.snapIndex < s.Next()
    ensures var s' := Round(s, count);
      && Moves(s, s', created) && 1 <= s'.Next() < s.Next()
      && s'.follower.snapIndex == s.follower.snapIndex && s'.follower.snapTerm == s.follower.snapTerm
      && s'.follower.log == s.follower.log
  {
    hide Round, AppendEntries, AppendReplied, AppendArgsFor, Contiguous, AllKnown, Hint;
    var n, m, p := s.leader, s.follower, s.follower.id;
    var args := AppendArgsFor(n, p);
    RequestWhole(n, p, created);
    RoundOutcome(s, count);
    assert !Accepts(m, args);
    Refused(m, args);
    Redirected(n, p, args, count, AppendEntries(m, args).1);
  }

  lemma Refused(m: Node, args: AppendArgs)
    requires m.Valid() && m.halted.None? && args.term >= m.term && !Accepts(m, args)
    requires args.prevIndex == 0 ==> args.prevTerm == 0
    ensures var (m', reply) := AppendEntries(m, args);
      && m'.Valid() && m'.halted.None? && m'.id == m.id && m'.term == args.term && m'.log == m.log
      && m'.snapIndex == m.snapIndex && m'.snapTerm == m.snapTerm
      && reply == AppendReply(args.term, false, Hint(Followed(m, args), args.prevIndex))
      && (m.snapIndex <= args.prevIndex ==> 1 <= reply.updateNext <= args.prevIndex)
      && (m.snapIndex > args.prevIndex ==> reply.updateNext == m.snapIndex + 1)
  {
    if m.snapIndex <= args.prevIndex <= m.Last() {
      BackOffBounds(Followed(m, args), args.prevIndex, m.TermAt(args.prevIndex), args.prevIndex);
    }
  }

  lemma Redirected(n: Node, p: nat, args: AppendArgs, count: nat, reply: AppendReply)
    requires n.Valid() && p < n.peers && n.status == Leader
    requires !reply.success && reply.term == n.term && reply.updateNext != NO_UPDATE
    ensures AppendReplied(n, p, args, count, reply).0 == n.(nextIndex := n.nextIndex[p := reply.updateNext])
  {
  }

  // ---------- all rounds ----------

  lemma RoundSpends(s: Pair, count: nat, created: map<(nat, nat), Op>)
    requires Still(s, created) && AgreeAtBoundary(s)
    ensures var s' := Round(s, count);
      && Still(s', created) && AgreeAtBoundary(s')
      && (Budget(s) == 0 ==> Budget(s') == 0) && (Budget(s) > 0 ==> Budget(s') < Budget(s))
  {
    hide Round, AllKnown;
    if WillMatch(s) || InStep(s) {
      MatchRound(s, count, created);
    } else if s.Next() <= s.leader.snapIndex {
      SnapshotRound(s, count, created);
    } else if s.Next() <= s.follower.snapIndex {
      BelowSnapshotRound(s, count, created);
    } else {
      RejectRound(s, count, created);
    }
  }

  lemma {:induction false} BudgetSuffices(s: Pair, counts: seq<nat>, created: map<(nat, nat), Op>)
    requires Still(s, created) && AgreeAtBoundary(s) && |counts| >= Budget(s)
    ensures InStep(Rounds(s, counts))
    decreases counts
  {
    hide Round, AllKnown;
    if counts != [] {
      RoundSpends(s, counts[0], created);
      BudgetSuffices(Round(s, counts[0]), counts[1..], created);
    }
  }

  /** From whatever nextIndex the loop starts: nextIndex + 2 rounds are enough, and success lasts. */
  lemma CatchesUp(s: Pair, counts: seq<nat>, created: map<(nat, nat), Op>)
    requires Still(s, created) && AgreeAtBoundary(s) && |counts| >= s.Next() + 2
    ensures InStep(Rounds(s, counts))
  {
    BudgetSuffices(s, counts, created);
  }

  // ---------- when they agree nowhere ----------

  /** The follower's snapshot is no older, and from it on no index has one term in both. */
  ghost predicate AgreeNowhere(s: Pair)
  {
    && s.leader.snapIndex <= s.follower.snapIndex
    && forall i | s.follower.snapIndex <= i <= s.follower.Last() && i <= s.leader.Last() ::
         s.leader.TermAt(i) != s.follower.TermAt(i)
  }

  /** The leader keeps trying in vain, or has died of its assertion on the previous index. */
  ghost predicate InVain(s: Pair, created: map<(nat, nat), Op>)
  {
    && AgreeNowhere(s) && s.leader.Valid() && s.follower.id < s.leader.peers
    && (Still(s, created) || s.leader.halted.Some? || Overshot(s))
  }

  /** The follower's snapshot lies past the leader's log, and the leader was sent there. */
  predicate Overshot(s: Pair)
    requires s.leader.Valid() && s.follower.id < s.leader.peers
  {
    s.Next() > s.leader.Last() + 1
  }

  lemma NotInStep(s: Pair)
    requires AgreeNowhere(s)
    ensures !InStep(s)
  {
  }

  lemma StillNowhere(s: Pair, s': Pair)
    requires AgreeNowhere(s)
    requires s'.leader.log == s.leader.log && s'.leader.snapIndex == s.leader.snapIndex
    requires s'.leader.snapTerm == s.leader.snapTerm && s'.follower.log == s.follower.log
    requires s'.follower.snapIndex == s.follower.snapIndex && s'.follower.snapTerm == s.follower.snapTerm
    ensures AgreeNowhere(s')
  {
    forall i | s'.follower.snapIndex <= i <= s'.follower.Last() && i <= s'.leader.Last()
      ensures s'.leader.TermAt(i) != s'.follower.TermAt(i)
    {
      assert s'.leader.TermAt(i) == s.leader.TermAt(i) && s'.follower.TermAt(i) == s.follower.TermAt(i);
    }
  }

  /** Snapshots bounce as well: the follower has a newer one and ignores them. */
  lemma IgnoredSnapshotRound(s: Pair, count: nat, created: map<(nat, nat), Op>)
    requires Still(s, created) && AgreeNowhere(s) && s.Next() <= s.leader.snapIndex
    ensures InVain(Round(s, count), created)
  {
    var s' := Round(s, count);
    assert s'.follower.log == s.follower.log && s'.leader.log == s.leader.log;
    StillNowhere(s, s');
  }

  lemma RoundInVain(s: Pair, count: nat, created: map<(nat, nat), Op>)
    requires InVain(s, created) && s.leader.halted.None?
    ensures InVain(Round(s, count), created)
  {
    hide AllKnown, AppendEntries, AppendReplied, InstallSnapshot, SnapshotReplied;
    if Overshot(s) {
      assert Round(s, count).leader.halted.Some?;
    } else if s.Next() <= s.leader.snapIndex {
      IgnoredSnapshotRound(s, count, created);
    } else if s.Next() <= s.follower.snapIndex {
      BelowSnapshotRound(s, count, created);
      StillNowhere(s, Round(s, count));
    } else {
      assert !WillMatch(s);
      RejectRound(s, count, created);
      StillNowhere(s, Round(s, count));
    }
  }

  lemma {:induction false} RoundsInVain(s: Pair, counts: seq<nat>, created: map<(nat, nat), Op>)
    requires InVain(s, created)
    ensures AgreeNowhere(Rounds(s, counts))
    decreases counts
  {
    hide Round, AllKnown;
    if counts != [] && s.leader.halted.None? {
      RoundInVain(s, counts[0], created);
      RoundsInVain(Round(s, counts[0]), counts[1..], created);
    }
  }

  /** However long it runs, the loop never ends in success. */
  lemma NeverCatchesUp(s: Pair, counts: seq<nat>, created: map<(nat, nat), Op>)
    requires Still(s, created) && AgreeNowhere(s)
    ensures !InStep(Rounds(s, counts))
  {
    RoundsInVain(s, counts, created);
    NotInStep(Rounds(s, counts));
  }

  /** Log Matching between the two, on the indices both still hold. */
  ghost predicate TermsMatch(s: Pair)
  {
    forall i, j | s.leader.snapIndex <= j <= i <= s.leader.Last()
      && s.follower.snapIndex <= j <= i <= s.follower.Last() ::
      s.leader.TermAt(i) == s.follower.TermAt(i) ==> s.leader.TermAt(j) == s.follower.TermAt(j)
  }

  /** For two logs with the matching property, agreement at the follower's snapshot boundary decides. */
  lemma BoundaryDecides(s: Pair, counts: seq<nat>, created: map<(nat, nat), Op>)
    requires Still(s, created) && TermsMatch(s) && |counts| >= s.Next() + 2
    ensures InStep(Rounds(s, counts)) <==> AgreeAtBoundary(s)
  {
    hide AllKnown, Round;
    if AgreeAtBoundary(s) {
      CatchesUp(s, counts, created);
    } else {
      assert AgreeNowhere(s);
      NeverCatchesUp(s, counts, created);
    }
  }
}
