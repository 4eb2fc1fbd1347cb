/** One Raft node as a value, and each locked region of raft.cpp as a function on it.
    The imperative node of RaftServer is proved against these functions, and the cluster
    of RaftCluster is built from them. */
module RaftNode {
  import opened RaftTypes

  datatype Node = Node(
    id: nat,
    peers: nat,
    term: nat,
    votedFor: int,
    status: Status,
    log: seq<LogEntry>,
    snapIndex: nat,
    snapTerm: nat,
    commitIndex: nat,
    lastApplied: nat,
    nextIndex: seq<int>,
    matchIndex: seq<nat>,
    disk: Disk,
    halted: Option<Assertion>)
  {
    function Last(): nat { snapIndex + |log| }

    function TermAt(i: nat): nat
      requires snapIndex <= i <= Last()
    {
      if i == snapIndex then snapTerm else log[i - snapIndex - 1].logTerm
    }

    function LastTerm(): nat { TermAt(Last()) }

    function Majority(): nat { peers / 2 + 1 }

    function Saved(): Disk { Disk(term, votedFor, snapIndex, snapTerm, log) }

    function Persist(): Node { this.(disk := Saved()) }

    function StepDown(newTerm: nat): Node { this.(status := Follower, term := newTerm, votedFor := NOBODY) }

    function Halt(a: Assertion): Node { this.(halted := Some(a)) }

    /** What every locked region leaves behind, whatever the other nodes do. */
    predicate Valid() {
      && id < peers
      && Contiguous(log, snapIndex)
      && (snapIndex == 0 ==> snapTerm == 0)
      && snapIndex <= lastApplied <= Last()
      && commitIndex <= Last()
      && |nextIndex| == |matchIndex| == peers
      && (forall p | 0 <= p < peers :: matchIndex[p] <= Last())
    }

    /** The disk holds the log and the snapshot boundary of memory. Term and vote may lag
        behind only while memory has a newer term in which no vote was cast. */
    predicate Durable() {
      && disk.log == log && disk.snapIndex == snapIndex && disk.snapTerm == snapTerm
      && disk.term <= term
      && (disk.term == term ==> disk.votedFor == votedFor)
      && (disk.term < term ==> votedFor == NOBODY && status == Follower)
    }
  }

  /** Start-up, from whatever the disk holds. */
  function Boot(id: nat, peers: nat, disk: Disk): Node
  {
    Node(id, peers, disk.term, disk.votedFor, Follower, disk.log, disk.snapIndex, disk.snapTerm,
         0, disk.snapIndex, seq(peers, _ => 0), seq(peers, _ => 0), disk, None)
  }

  function Restart(n: Node): Node { Boot(n.id, n.peers, n.disk) }

  /** The entry of the node at an index above its snapshot. */
  function EntryAt(n: Node, i: nat): LogEntry
    requires n.snapIndex < i <= n.Last()
  {
    n.log[i - n.snapIndex - 1]
  }

  predicate IsPeer(n: Node, p: nat) { p < n.peers && p != n.id }

  function Others(n: Node): set<nat> { set p | 0 <= p < n.peers && IsPeer(n, p) }

  // ---------- elections ----------

  function DoElection(n: Node): Node
  {
    if n.status == Leader then n
    else n.(status := Candidate, term := n.term + 1, votedFor := n.id).Persist()
  }

  function VoteArgsOf(n: Node): VoteArgs
  {
    VoteArgs(n.term, n.id, n.Last(), n.LastTerm())
  }

  predicate UpToDate(n: Node, index: nat, term: nat)
  {
    term > n.LastTerm() || (term == n.LastTerm() && index >= n.Last())
  }

  function RequestVote(n: Node, args: VoteArgs): (Node, VoteReply)
  {
    if args.term < n.term then (n.Persist(), VoteReply(n.term, false, Expire))
    else
      var m := if args.term > n.term then n.StepDown(args.term) else n;
      if !UpToDate(m, args.lastIndex, args.lastTerm) then (m.Persist(), VoteReply(m.term, false, Voted))
      else if m.votedFor != NOBODY && m.votedFor != args.candidate then
        (m.Persist(), VoteReply(m.term, false, Voted))
      else (m.(votedFor := args.candidate).Persist(), VoteReply(m.term, true, Normal))
  }

  function Crown(n: Node): Node
  {
    n.(status := Leader,
       nextIndex := seq(|n.nextIndex|, _ => n.Last() + 1),
       matchIndex := seq(|n.nextIndex|, _ => 0))
  }

  /** The reply to one vote request; `count` is the counter all requests of the election share. */
  function VoteReplied(n: Node, count: nat, reply: VoteReply): (Node, nat)
  {
    if reply.term > n.term then (n.StepDown(reply.term).Persist(), count)
    else if reply.term < n.term || !reply.granted then (n, count)
    else if count + 1 < n.Majority() then (n, count + 1)
    else if n.status == Leader then (n.Halt(LeaderTwice), 0)
    else (Crown(n), 0)
  }

  // ---------- replication ----------

  function Start(n: Node, command: Op): Node
  {
    if n.status != Leader then n
    else n.(log := n.log + [LogEntry(command, n.term, n.Last() + 1)]).Persist()
  }

  /** The assertions doHeartBeat meets while it serves peer p. */
  function BeatFault(n: Node, p: nat): Option<Assertion>
    requires p < |n.nextIndex|
  {
    if n.nextIndex[p] < 1 then Some(NextIndexPositive)
    else if n.nextIndex[p] > n.Last() + 1 then Some(PrevIndexInLog)
    else None
  }

  /** The first assertion to fail among the peers from p on. */
  function FirstBeatFault(n: Node, p: nat): Option<Assertion>
    requires n.peers == |n.nextIndex|
    decreases n.peers - p
  {
    if p >= n.peers then None
    else if p != n.id && BeatFault(n, p).Some? then BeatFault(n, p)
    else FirstBeatFault(n, p + 1)
  }

  /** doHeartBeat gets as far as peer p: no peer up to p meets an assertion. */
  predicate Served(n: Node, p: nat): (served: bool)
    requires n.peers == |n.nextIndex|
    ensures served ==> IsPeer(n, p) && 1 <= n.nextIndex[p] <= n.Last() + 1
  {
    && IsPeer(n, p) && BeatFault(n, p).None?
    && forall q | 0 <= q < p && q != n.id :: BeatFault(n, q).None?
  }

  predicate NeedsSnapshot(n: Node, p: nat)
    requires p < |n.nextIndex|
  {
    n.nextIndex[p] <= n.snapIndex
  }

  function AppendArgsFor(n: Node, p: nat): AppendArgs
    requires p < |n.nextIndex| && n.snapIndex < n.nextIndex[p] <= n.Last() + 1
  {
    var prev := n.nextIndex[p] - 1;
    AppendArgs(n.term, n.id, prev, n.TermAt(prev), n.log[prev - n.snapIndex..], n.commitIndex)
  }

  /** The log with `entries` laid over it from position `at` on; what lies beyond them stays. */
  function Splice(log: seq<LogEntry>, at: nat, entries: seq<LogEntry>): seq<LogEntry>
    requires at <= |log|
  {
    log[..at] + entries + if at + |entries| < |log| then log[at + |entries|..] else []
  }

  /** The replication step as the Raft paper words it (section 5.3, figure 2): skip the entries the
      log already has, and at the first conflict drop the log from there on. */
  function PaperAppend(log: seq<LogEntry>, at: nat, entries: seq<LogEntry>): seq<LogEntry>
    requires at <= |log|
    decreases |entries|
  {
    if entries == [] then log
    else if at < |log| && log[at].logTerm == entries[0].logTerm then PaperAppend(log, at + 1, entries[1..])
    else log[..at] + entries
  }

  /** Some entry sits where the log already holds one of another term. */
  predicate Conflicts(log: seq<LogEntry>, at: nat, entries: seq<LogEntry>)
  {
    exists k | 0 <= k < |entries| && at + k < |log| :: log[at + k].logTerm != entries[k].logTerm
  }

  /** Some entry sits where the log holds one of the same term with another command. */
  predicate Clashes(log: seq<LogEntry>, at: nat, entries: seq<LogEntry>)
  {
    exists k | 0 <= k < |entries| && at + k < |log| ::
      log[at + k].logTerm == entries[k].logTerm && log[at + k].command != entries[k].command
  }

  /** The last index in [n.snapIndex, i] whose term differs from `t`, plus one; or `none`. */
  function BackOff(n: Node, i: int, t: nat, none: nat): nat
    requires n.snapIndex - 1 <= i <= n.Last()
    decreases i + 1
  {
    if i < n.snapIndex then none
    else if n.TermAt(i) != t then i + 1
    else BackOff(n, i - 1, t, none)
  }

  /** It never points past the index it starts from, nor past the alternative, nor below 1. */
  lemma BackOffBounds(n: Node, i: int, t: nat, none: nat)
    requires n.snapIndex - 1 <= i <= n.Last()
    ensures BackOff(n, i, t, none) <= Max(i + 1, none)
    ensures none >= 1 ==> BackOff(n, i, t, none) >= 1
    ensures i >= n.snapIndex && n.TermAt(i) == t ==> BackOff(n, i, t, none) <= Max(i, none)
    decreases i + 1
  {
    if i >= n.snapIndex && n.TermAt(i) == t {
      BackOffBounds(n, i - 1, t, none);
    }
  }

  predicate InWindow(n: Node, args: AppendArgs) { n.snapIndex <= args.prevIndex <= n.Last() }

  /** The term of the last entry a request covers. */
  function EndTerm(args: AppendArgs): nat
  {
    if args.entries == [] then args.prevTerm else args.entries[|args.entries| - 1].logTerm
  }

  /** A request this node accepts: current term, and the previous entry matches. */
  predicate Accepts(n: Node, args: AppendArgs)
  {
    args.term >= n.term && InWindow(n, args) && n.TermAt(args.prevIndex) == args.prevTerm
  }

  function Followed(n: Node, args: AppendArgs): Node
  {
    (if args.term > n.term then n.StepDown(args.term) else n).(status := Follower)
  }

  function Absorb(n: Node, args: AppendArgs): Node
    requires InWindow(n, args)
  {
    var m := n.(log := Splice(n.log, args.prevIndex - n.snapIndex, args.entries));
    if args.leaderCommit > m.commitIndex then m.(commitIndex := Min(args.leaderCommit, m.Last())) else m
  }

  function AppendEntries(n: Node, args: AppendArgs): (Node, AppendReply)
  {
    if args.term < n.term then (n, AppendReply(n.term, false, NO_UPDATE))
    else if Accepts(n, args) then Replicate(Followed(n, args), args)
    else (Followed(n, args).Persist(), AppendReply(args.term, false, Hint(Followed(n, args), args.prevIndex)))
  }

  /** Where a refused leader should try next. */
  function Hint(n: Node, prev: nat): nat
  {
    if prev > n.Last() then n.Last() + 1
    else if prev < n.snapIndex then n.snapIndex + 1
    else BackOff(n, prev, n.TermAt(prev), prev)
  }

  function Replicate(m: Node, args: AppendArgs): (Node, AppendReply)
    requires InWindow(m, args)
  {
    if Clashes(m.log, args.prevIndex - m.snapIndex, args.entries) then
      (m.Halt(SameTermOtherCommand), AppendReply(m.term, false, NO_UPDATE))
    else (Absorb(m, args).Persist(), AppendReply(m.term, true, 0))
  }

  /** The reply of peer p to `args`; `count` is the counter all requests of the heartbeat share. */
  function AppendReplied(n: Node, p: nat, args: AppendArgs, count: nat, reply: AppendReply): (Node, nat)
    requires p < |n.nextIndex| == |n.matchIndex|
  {
    if reply.term > n.term then (n.StepDown(reply.term), count)
    else if reply.term < n.term || n.status != Leader then (n, count)
    else if !reply.success then
      (if reply.updateNext == NO_UPDATE then n else n.(nextIndex := n.nextIndex[p := reply.updateNext]), count)
    else
      var match' := Max(n.matchIndex[p], args.End());
      if match' > n.Last() then (n.Halt(NextIndexInLog), count + 1)
      else
        var m := n.(matchIndex := n.matchIndex[p := match'], nextIndex := n.nextIndex[p := match' + 1]);
        if count + 1 < n.Majority() then (m, count + 1)
        else
          (if CommitsOn(n, args) then m.(commitIndex := Max(m.commitIndex, args.End())) else m, 0)
  }

  /** Only an entry of the leader's own term moves the commit index. */
  predicate CommitsOn(n: Node, args: AppendArgs)
  {
    args.entries != [] && args.entries[|args.entries| - 1].logTerm == n.term
  }

  // ---------- applying and snapshots ----------

  function ApplyLogs(n: Node): (Node, seq<ApplyMsg>)
    requires n.Valid()
  {
    (n.(lastApplied := Max(n.lastApplied, n.commitIndex)), Messages(n, n.lastApplied, n.commitIndex))
  }

  /** The messages for the indices after `from` up to `to`. */
  function Messages(n: Node, from: nat, to: nat): seq<ApplyMsg>
    requires n.snapIndex <= from && to <= n.Last()
  {
    seq(if from < to then to - from else 0, k requires 0 <= k < to - from =>
      ApplyMsg(from + 1 + k, n.log[from + k - n.snapIndex].command))
  }

  function Snapshot(n: Node, index: int): Node
    requires n.commitIndex <= n.Last()
  {
    if n.snapIndex >= index || index > n.commitIndex then n
    else
      n.(log := n.log[index - n.snapIndex..], snapIndex := index, snapTerm := n.TermAt(index),
         commitIndex := Max(n.commitIndex, index), lastApplied := Max(n.lastApplied, index)).Persist()
  }

  function InstallArgsOf(n: Node): InstallArgs { InstallArgs(n.term, n.id, n.snapIndex, n.snapTerm) }

  /** The node takes the snapshot over. */
  predicate Takes(n: Node, args: InstallArgs) { args.term >= n.term && args.snapIndex > n.snapIndex }

  /** The reply carries no term (so 0) when the snapshot is not newer than the node's own. */
  function InstallSnapshot(n: Node, args: InstallArgs): (Node, nat)
  {
    if args.term < n.term then (n, n.term)
    else
      var m := (if args.term > n.term then n.StepDown(args.term).Persist() else n).(status := Follower);
      if args.snapIndex <= m.snapIndex then (m, 0) else (Rebase(m, args), m.term)
  }

  /** Entries beyond the snapshot stay, without a look at their terms. */
  function Rebase(m: Node, args: InstallArgs): Node
    requires m.snapIndex < args.snapIndex
  {
    m.(log := if m.Last() > args.snapIndex then m.log[args.snapIndex - m.snapIndex..] else [],
       snapIndex := args.snapIndex, snapTerm := args.snapTerm,
       commitIndex := Max(m.commitIndex, args.snapIndex),
       lastApplied := Max(m.lastApplied, args.snapIndex)).Persist()
  }

  function SnapshotReplied(n: Node, p: nat, args: InstallArgs, replyTerm: nat): Node
    requires p < |n.nextIndex| == |n.matchIndex|
  {
    if n.status != Leader || n.term != args.term then n
    else if replyTerm > n.term then n.StepDown(replyTerm).Persist()
    else n.(matchIndex := n.matchIndex[p := args.snapIndex], nextIndex := n.nextIndex[p := args.snapIndex + 1])
  }
}
