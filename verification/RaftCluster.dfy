/** A fixed set of nodes, the calls between them and a disk per node (kept inside the node).
    One step is one locked region, a crash with restart, or nothing. Requests may be lost, late or
    reordered; a call is answered at most once and its reply is handled at most once. */
module RaftCluster {
  import opened RaftTypes
  import opened RaftNode
  import opened NodeInvariants

  datatype Ballot = Ballot(candidate: nat, term: nat)
  datatype VoteKey = VoteKey(ballot: Ballot, voter: nat)

  /** The election calls. The last three fields are history: no step reads them, the proofs do. */
  datatype Elections = Elections(
    ballots: map<Ballot, VoteArgs>,             // elections held
    replies: map<VoteKey, VoteReply>,
    closed: set<VoteKey>,                       // replies handled
    counts: map<Ballot, nat>,                   // counters of the elections whose candidate still runs
    counted: map<Ballot, set<nat>>,             // voters a candidate counted
    votes: map<(nat, nat), nat>,                // (voter, term) -> candidate
    leaders: map<nat, nat>,                     // term -> leader
    quorums: map<nat, set<nat>>)                // term -> who elected the leader

  datatype AppendKey = AppendKey(round: nat, peer: nat)

  /** One heartbeat: the requests it sent, and where the leader's log ended. */
  datatype Beat = Beat(leader: nat, term: nat, last: nat, lastTerm: nat, sent: map<nat, AppendArgs>)

  datatype Commit = Commit(term: nat, index: nat, round: nat, quorum: set<nat>)

  /** The replication calls; the last three fields are history. */
  datatype Replication = Replication(
    beats: seq<Beat>,
    replies: map<AppendKey, AppendReply>,
    closed: set<AppendKey>,
    counts: map<nat, nat>,                      // counters of the heartbeats whose leader still runs
    replicas: map<nat, set<nat>>,               // heartbeat -> peers whose success was counted
    holders: map<AppendKey, Node>,              // heartbeat, node -> the node when it held the leader's log end
    commits: set<Commit>)

  datatype InstallCall = InstallCall(sender: nat, peer: nat, args: InstallArgs)

  /** The snapshot calls. */
  datatype Transfers = Transfers(
    threads: set<(nat, nat)>,                   // (node, peer) pairs for which a snapshot thread was started
    installs: seq<InstallCall>,
    replies: map<nat, nat>,
    awaited: set<nat>)                          // installs whose sender still waits for the reply

  /** What became of logs and commands; all of it history. */
  datatype Past = Past(
    candLogs: map<Ballot, seq<LogEntry>>,       // the candidate's log when it stood
    voteLogs: map<(nat, nat), seq<LogEntry>>,   // the voter's log when it voted before the term had a leader
    electLogs: map<nat, seq<LogEntry>>,         // the leader's log when it won
    termLogs: map<nat, seq<LogEntry>>,          // the leader's log as far as it grew in the term
    created: map<(nat, nat), Op>,               // (index, term) -> command
    delivered: seq<seq<ApplyMsg>>,              // per node, since its last start
    applied: set<ApplyMsg>)                     // by any node, ever

  datatype Cluster = Cluster(nodes: seq<Node>, el: Elections, re: Replication, sn: Transfers, past: Past)

  datatype Event =
    | Elect(i: nat)
    | DeliverVote(vote: VoteKey)
    | VoteAnswered(vote: VoteKey)
    | ClientStart(i: nat, command: Op)
    | HeartBeat(i: nat)
    | DeliverAppend(append: AppendKey)
    | AppendAnswered(append: AppendKey)
    | TakeSnapshot(i: nat, index: int)
    | SendSnapshot(i: nat, peer: nat)
    | DeliverInstall(install: nat)
    | InstallAnswered(install: nat)
    | Apply(i: nat)
    | Crash(i: nat)

  // ---------- well-formed clusters ----------

  ghost predicate Wf(c: Cluster)
  {
    && WfNodes(c.nodes) && WfVotes(c.nodes, c.el) && WfBeats(c.nodes, c.re) && WfInstalls(c.nodes, c.sn)
    && |c.past.delivered| == |c.nodes|
  }

  ghost predicate WfNodes(nodes: seq<Node>)
  {
    forall i | 0 <= i < |nodes| :: Sound(nodes[i]) && nodes[i].id == i && nodes[i].peers == |nodes|
  }

  ghost predicate WfVotes(nodes: seq<Node>, el: Elections)
  {
    && (forall b | b in el.ballots ::
      && b.candidate < |nodes| && b.term <= nodes[b.candidate].disk.term
      && el.ballots[b].term == b.term && el.ballots[b].candidate == b.candidate)
    && (forall k | k in el.replies ::
      && k.ballot in el.ballots && k.voter < |nodes| && k.voter != k.ballot.candidate
      && (el.replies[k].granted ==> el.replies[k].term == k.ballot.term))
    && el.counts.Keys <= el.ballots.Keys == el.counted.Keys
  }

  ghost predicate WfBeats(nodes: seq<Node>, re: Replication)
  {
    && (forall r | 0 <= r < |re.beats| :: WfBeat(nodes, re.beats[r]))
    && (forall k | k in re.replies :: k.round < |re.beats| && k.peer in re.beats[k.round].sent)
    && (forall r | r in re.counts :: r < |re.beats|)
    && (forall r | 0 <= r < |re.beats| :: r in re.replicas)
  }

  ghost predicate WfBeat(nodes: seq<Node>, b: Beat)
  {
    && b.leader < |nodes| && b.last <= nodes[b.leader].Last()
    && forall p | p in b.sent :: p < |nodes| && p != b.leader && WfRequest(b, b.sent[p])
  }

  ghost predicate WfRequest(b: Beat, args: AppendArgs)
  {
    && args.term == b.term && args.leader == b.leader && args.End() == b.last
    && Contiguous(args.entries, args.prevIndex)
  }

  ghost predicate WfInstalls(nodes: seq<Node>, sn: Transfers)
  {
    && (forall k | 0 <= k < |sn.installs| ::
      && sn.installs[k].sender < |nodes| && sn.installs[k].peer < |nodes|
      && sn.installs[k].args.snapIndex <= nodes[sn.installs[k].sender].Last())
    && (forall k | k in sn.replies || k in sn.awaited :: k < |sn.installs|)
    && (forall t | t in sn.threads :: t.0 < |nodes| && t.1 < |nodes|)
  }

  predicate Alive(c: Cluster, i: nat) { i < |c.nodes| && c.nodes[i].halted.None? }

  /** Node i moves on to n; nothing else in the nodes changes. */
  function Put(c: Cluster, i: nat, n: Node): Cluster
    requires i < |c.nodes|
  {
    c.(nodes := c.nodes[i := n])
  }

  lemma PutKeepsWf(c: Cluster, i: nat, n: Node)
    requires Wf(c) && i < |c.nodes| && Keeps(c.nodes[i], n)
    ensures Wf(Put(c, i, n))
  {
    var nodes := c.nodes[i := n];
    assert forall j | 0 <= j < |nodes| ::
        c.nodes[j].Last() <= nodes[j].Last() && c.nodes[j].disk.term <= nodes[j].disk.term;
    assert WfVotes(nodes, c.el);
    forall r | 0 <= r < |c.re.beats| ensures WfBeat(nodes, c.re.beats[r]) {
      assert WfBeat(c.nodes, c.re.beats[r]);
    }
  }

  // ---------- the steps ----------

  function Init(n: nat): (c: Cluster)
    ensures Wf(c) && |c.nodes| == n
  {
    Cluster(seq(n, i requires 0 <= i < n => Boot(i, n, BLANK_DISK)),
            Elections(map[], map[], {}, map[], map[], map[], map[], map[]),
            Replication([], map[], {}, map[], map[], map[], {}),
            Transfers({}, [], map[], {}),
            Past(map[], map[], map[], map[], map[], seq(n, _ => []), {}))
  }

  function ElectStep(c: Cluster, i: nat): Cluster
    requires Wf(c) && Alive(c, i)
  {
    var n := c.nodes[i];
    if n.status == Leader then c
    else
      var n' := DoElection(n);
      var b := Ballot(i, n'.term);
      Put(c, i, n').(
        el := c.el.(
          ballots := c.el.ballots[b := VoteArgsOf(n')],
          counts := c.el.counts[b := 1],
          counted := c.el.counted[b := {}],
          votes := c.el.votes[(i, n'.term) := i]),
        past := c.past.(
          candLogs := c.past.candLogs[b := n.log],
          voteLogs := VoteLogged(c, i, n'.term)))
  }

  /** Node v votes in the term: remember its log, unless the term has a leader already. */
  function VoteLogged(c: Cluster, v: nat, term: nat): map<(nat, nat), seq<LogEntry>>
    requires v < |c.nodes|
  {
    if term in c.el.leaders then c.past.voteLogs else c.past.voteLogs[(v, term) := c.nodes[v].log]
  }

  predicate CanDeliverVote(c: Cluster, k: VoteKey)
  {
    k.ballot in c.el.ballots && Alive(c, k.voter) && k.voter != k.ballot.candidate && k !in c.el.replies
  }

  function DeliverVoteStep(c: Cluster, k: VoteKey): Cluster
    requires Wf(c) && CanDeliverVote(c, k)
  {
    var (n', reply) := RequestVote(c.nodes[k.voter], c.el.ballots[k.ballot]);
    var el := c.el.(replies := c.el.replies[k := reply]);
    if !reply.granted then Put(c, k.voter, n').(el := el)
    else Put(c, k.voter, n').(
      el := el.(votes := el.votes[(k.voter, k.ballot.term) := k.ballot.candidate]),
      past := c.past.(voteLogs := VoteLogged(c, k.voter, k.ballot.term)))
  }

  predicate CanHandleVote(c: Cluster, k: VoteKey)
  {
    && k in c.el.replies && k !in c.el.closed && k.ballot in c.el.counts && k.ballot in c.el.counted
    && Alive(c, k.ballot.candidate)
  }

  function VoteAnsweredStep(c: Cluster, k: VoteKey): Cluster
    requires Wf(c) && CanHandleVote(c, k)
  {
    var b := k.ballot;
    var n := c.nodes[b.candidate];
    var (n', count) := VoteReplied(n, c.el.counts[b], c.el.replies[k]);
    var d := Put(c, b.candidate, n').(el := Tally(c.el, k, n.term, count));
    if Wins(n, n') then Crowned(d, b.candidate, n.term, d.el.counted[b] + {b.candidate}, n.log) else d
  }

  predicate Wins(n: Node, n': Node) { n.status != Leader && n'.status == Leader }

  /** A granted vote of the candidate's current term is counted; the reply is used up either way. */
  function Tally(el: Elections, k: VoteKey, term: nat, count: nat): Elections
    requires k in el.replies && k.ballot in el.counted
  {
    var had := el.counted[k.ballot];
    var now := if el.replies[k].granted && el.replies[k].term == term then had + {k.voter} else had;
    el.(closed := el.closed + {k}, counts := el.counts[k.ballot := count], counted := el.counted[k.ballot := now])
  }

  function Crowned(c: Cluster, leader: nat, term: nat, quorum: set<nat>, log: seq<LogEntry>): Cluster
  {
    c.(el := c.el.(leaders := c.el.leaders[term := leader], quorums := c.el.quorums[term := quorum]),
       past := c.past.(electLogs := c.past.electLogs[term := log], termLogs := c.past.termLogs[term := log]))
  }

  function ClientStartStep(c: Cluster, i: nat, command: Op): Cluster
    requires Wf(c) && Alive(c, i)
  {
    var n := c.nodes[i];
    if n.status != Leader then c
    else
      var n' := Start(n, command);
      Put(c, i, n').(past := c.past.(
        created := c.past.created[(n'.Last(), n.term) := command],
        termLogs := c.past.termLogs[n.term := n'.log]))
  }

  /** An assertion that fails ends the process when the peers before are served already. */
  function HeartBeatStep(c: Cluster, i: nat): Cluster
    requires Wf(c) && Alive(c, i)
  {
    var n := c.nodes[i];
    if n.status != Leader then c
    else
      match FirstBeatFault(n, 0)
      case None => Sending(c, i)
      case Some(a) => Put(Sending(c, i), i, n.Halt(a))
  }

  function Sending(c: Cluster, i: nat): Cluster
    requires Wf(c) && i < |c.nodes|
  {
    var n := c.nodes[i];
    c.(re := Sent(c.re, n),
       sn := c.sn.(threads := c.sn.threads + (set p | p in Others(n) && Served(n, p) && NeedsSnapshot(n, p) :: (i, p))))
  }

  function Sent(re: Replication, n: Node): Replication
    requires n.Valid()
  {
    var r := |re.beats|;
    re.(beats := re.beats + [BeatOf(n)], counts := re.counts[r := 1], replicas := re.replicas[r := {}],
        holders := re.holders[AppendKey(r, n.id) := n])
  }

  /** Every peer's next index lies in 1 .. last index + 1. */
  ghost predicate InReach(n: Node)
    requires n.Valid()
  {
    forall p | p in Others(n) :: 1 <= n.nextIndex[p] <= n.Last() + 1
  }

  lemma NoBeatFault(n: Node, p: nat)
    requires n.Valid()
    ensures FirstBeatFault(n, p).None? <==> forall q | p <= q && q in Others(n) :: 1 <= n.nextIndex[q] <= n.Last() + 1
    decreases n.peers - p
  {
    if p < n.peers {
      NoBeatFault(n, p + 1);
      assert p != n.id ==> p in Others(n);
    }
  }

  function BeatOf(n: Node): Beat
    requires n.Valid()
  {
    Beat(n.id, n.term, n.Last(), n.LastTerm(),
         map p | p in Others(n) && Served(n, p) && !NeedsSnapshot(n, p) :: AppendArgsFor(n, p))
  }

  predicate CanDeliverAppend(c: Cluster, k: AppendKey)
  {
    k.round < |c.re.beats| && k.peer in c.re.beats[k.round].sent && Alive(c, k.peer) && k !in c.re.replies
  }

  function DeliverAppendStep(c: Cluster, k: AppendKey): Cluster
    requires Wf(c) && CanDeliverAppend(c, k)
  {
    var (n', reply) := AppendEntries(c.nodes[k.peer], c.re.beats[k.round].sent[k.peer]);
    if n'.halted.Some? then Put(c, k.peer, n')
    else Put(c, k.peer, n').(re := c.re.(
      replies := c.re.replies[k := reply],
      holders := if reply.success then c.re.holders[k := n'] else c.re.holders))
  }

  predicate CanHandleAppend(c: Cluster, k: AppendKey)
  {
    && k in c.re.replies && k !in c.re.closed && k.round in c.re.counts && k.round < |c.re.beats|
    && Alive(c, c.re.beats[k.round].leader)
  }

  function AppendAnsweredStep(c: Cluster, k: AppendKey): Cluster
    requires Wf(c) && CanHandleAppend(c, k)
  {
    var b := c.re.beats[k.round];
    assert WfBeat(c.nodes, b);
    var n := c.nodes[b.leader];
    var reply := c.re.replies[k];
    var (n', count) := AppendReplied(n, k.peer, b.sent[k.peer], c.re.counts[k.round], reply);
    var had := c.re.replicas[k.round];
    var replicas := if reply.success && reply.term == n.term && n.status == Leader then had + {k.peer} else had;
    Put(c, b.leader, n').(re := c.re.(
      closed := c.re.closed + {k},
      counts := c.re.counts[k.round := count],
      replicas := c.re.replicas[k.round := replicas],
      commits := if n'.commitIndex > n.commitIndex
                 then c.re.commits + {Commit(n.term, n'.commitIndex, k.round, replicas + {b.leader})}
                 else c.re.commits))
  }

  function TakeSnapshotStep(c: Cluster, i: nat, index: int): Cluster
    requires Wf(c) && Alive(c, i)
  {
    Put(c, i, Snapshot(c.nodes[i], index))
  }

  /** A snapshot thread reads the node when it gets the lock, leader or not. */
  function SendSnapshotStep(c: Cluster, i: nat, peer: nat): Cluster
    requires Wf(c) && Alive(c, i) && (i, peer) in c.sn.threads
  {
    c.(sn := c.sn.(installs := c.sn.installs + [InstallCall(i, peer, InstallArgsOf(c.nodes[i]))],
                   awaited := c.sn.awaited + {|c.sn.installs|}))
  }

  predicate CanDeliverInstall(c: Cluster, k: nat)
  {
    k < |c.sn.installs| && Alive(c, c.sn.installs[k].peer) && k !in c.sn.replies
  }

  function DeliverInstallStep(c: Cluster, k: nat): Cluster
    requires Wf(c) && CanDeliverInstall(c, k)
  {
    var p := c.sn.installs[k].peer;
    var (n', reply) := InstallSnapshot(c.nodes[p], c.sn.installs[k].args);
    Put(c, p, n').(sn := c.sn.(replies := c.sn.replies[k := reply]))
  }

  predicate CanHandleInstall(c: Cluster, k: nat)
  {
    k < |c.sn.installs| && k in c.sn.replies && k in c.sn.awaited && Alive(c, c.sn.installs[k].sender)
  }

  function InstallAnsweredStep(c: Cluster, k: nat): Cluster
    requires Wf(c) && CanHandleInstall(c, k)
  {
    var call := c.sn.installs[k];
    Put(c, call.sender, SnapshotReplied(c.nodes[call.sender], call.peer, call.args, c.sn.replies[k])).(
      sn := c.sn.(awaited := c.sn.awaited - {k}))
  }

  function ApplyStep(c: Cluster, i: nat): Cluster
    requires Wf(c) && Alive(c, i)
  {
    var (n', msgs) := ApplyLogs(c.nodes[i]);
    Put(c, i, n').(past := c.past.(
      delivered := c.past.delivered[i := c.past.delivered[i] + msgs],
      applied := c.past.applied + (set m | m in msgs)))
  }

  /** The process dies with its memory, its counters and its waiting callers, and starts again from disk. */
  function CrashStep(c: Cluster, i: nat): Cluster
    requires Wf(c) && i < |c.nodes|
  {
    Put(c, i, Restart(c.nodes[i])).(
      el := c.el.(counts := map b | b in c.el.counts && b.candidate != i :: c.el.counts[b]),
      re := c.re.(counts := map r | r in c.re.counts && c.re.beats[r].leader != i :: c.re.counts[r]),
      sn := c.sn.(threads := (set t | t in c.sn.threads && t.0 != i),
                  awaited := (set k | k in c.sn.awaited && c.sn.installs[k].sender != i)),
      past := c.past.(delivered := c.past.delivered[i := []]))
  }

  /** An event that is not possible in c leaves c as it is. */
  function Step(c: Cluster, e: Event): (c': Cluster)
    requires Wf(c)
    ensures Wf(c') && |c'.nodes| == |c.nodes|
  {
    StepKeepsWf(c, e);
    SameSize(c, e);
    Do(c, e)
  }

  function Do(c: Cluster, e: Event): Cluster
    requires Wf(c)
  {
    match e
    case Elect(i) => if Alive(c, i) then ElectStep(c, i) else c
    case DeliverVote(k) => if CanDeliverVote(c, k) then DeliverVoteStep(c, k) else c
    case VoteAnswered(k) => if CanHandleVote(c, k) then VoteAnsweredStep(c, k) else c
    case ClientStart(i, command) => if Alive(c, i) then ClientStartStep(c, i, command) else c
    case HeartBeat(i) => if Alive(c, i) then HeartBeatStep(c, i) else c
    case DeliverAppend(k) => if CanDeliverAppend(c, k) then DeliverAppendStep(c, k) else c
    case AppendAnswered(k) => if CanHandleAppend(c, k) then AppendAnsweredStep(c, k) else c
    case TakeSnapshot(i, index) => if Alive(c, i) then TakeSnapshotStep(c, i, index) else c
    case SendSnapshot(i, p) => if Alive(c, i) && (i, p) in c.sn.threads then SendSnapshotStep(c, i, p) else c
    case DeliverInstall(k) => if CanDeliverInstall(c, k) then DeliverInstallStep(c, k) else c
    case InstallAnswered(k) => if CanHandleInstall(c, k) then InstallAnsweredStep(c, k) else c
    case Apply(i) => if Alive(c, i) then ApplyStep(c, i) else c
    case Crash(i) => if i < |c.nodes| then CrashStep(c, i) else c
  }

  /** The cluster after a run of events. Every sequence of events is a run. */
  function Exec(c: Cluster, events: seq<Event>): (c': Cluster)
    requires Wf(c)
    ensures Wf(c') && |c'.nodes| == |c.nodes|
  {
    if events == [] then c else Step(Exec(c, events[..|events| - 1]), events[|events| - 1])
  }

  /** The cluster of n nodes after the first k events of a run. */
  function At(n: nat, events: seq<Event>, k: nat): (c: Cluster)
    requires k <= |events|
    ensures Wf(c) && |c.nodes| == n
  {
    Exec(Init(n), events[..k])
  }

  lemma AtNext(n: nat, events: seq<Event>, k: nat)
    requires k < |events|
    ensures At(n, events, k + 1) == Step(At(n, events, k), events[k])
  {
    assert events[..k + 1][..k] == events[..k];
  }

  lemma SameSize(c: Cluster, e: Event)
    requires Wf(c)
    ensures |Do(c, e).nodes| == |c.nodes|
  {
    hide WfNodes, WfVotes, WfBeats, WfInstalls;
  }

  // ---------- every step keeps the cluster well formed ----------

  lemma StepKeepsWf(c: Cluster, e: Event)
    requires Wf(c)
    ensures Wf(Do(c, e))
  {
    hide Wf, ElectStep, DeliverVoteStep, VoteAnsweredStep, ClientStartStep, HeartBeatStep, DeliverAppendStep;
    hide AppendAnsweredStep, TakeSnapshotStep, SendSnapshotStep, DeliverInstallStep, InstallAnsweredStep;
    hide ApplyStep, CrashStep;
    match e
    case Elect(i) => if Alive(c, i) { ElectWf(c, i); }
    case DeliverVote(k) => if CanDeliverVote(c, k) { DeliverVoteWf(c, k); }
    case VoteAnswered(k) => if CanHandleVote(c, k) { VoteAnsweredWf(c, k); }
    case ClientStart(i, command) => if Alive(c, i) { ClientStartWf(c, i, command); }
    case HeartBeat(i) => if Alive(c, i) { HeartBeatWf(c, i); }
    case DeliverAppend(k) => if CanDeliverAppend(c, k) { DeliverAppendWf(c, k); }
    case AppendAnswered(k) => if CanHandleAppend(c, k) { AppendAnsweredWf(c, k); }
    case TakeSnapshot(i, index) => if Alive(c, i) { TakeSnapshotWf(c, i, index); }
    case SendSnapshot(i, p) => if Alive(c, i) && (i, p) in c.sn.threads { SendSnapshotWf(c, i, p); }
    case DeliverInstall(k) => if CanDeliverInstall(c, k) { DeliverInstallWf(c, k); }
    case InstallAnswered(k) => if CanHandleInstall(c, k) { InstallAnsweredWf(c, k); }
    case Apply(i) => if Alive(c, i) { ApplyWf(c, i); }
    case Crash(i) => if i < |c.nodes| { CrashWf(c, i); }
  }

  lemma ElectWf(c: Cluster, i: nat)
    requires Wf(c) && Alive(c, i)
    ensures Wf(ElectStep(c, i))
  {
    DoElectionKeeps(c.nodes[i]);
    PutKeepsWf(c, i, DoElection(c.nodes[i]));
  }

  lemma DeliverVoteWf(c: Cluster, k: VoteKey)
    requires Wf(c) && CanDeliverVote(c, k)
    ensures Wf(DeliverVoteStep(c, k))
  {
    RequestVoteKeeps(c.nodes[k.voter], c.el.ballots[k.ballot]);
    PutKeepsWf(c, k.voter, RequestVote(c.nodes[k.voter], c.el.ballots[k.ballot]).0);
    GrantedTerm(c.nodes[k.voter], c.el.ballots[k.ballot]);
  }

  lemma GrantedTerm(n: Node, args: VoteArgs)
    requires n.Valid()
    ensures RequestVote(n, args).1.granted ==> RequestVote(n, args).1.term == args.term
  {
  }

  lemma VoteAnsweredWf(c: Cluster, k: VoteKey)
    requires Wf(c) && CanHandleVote(c, k)
    ensures Wf(VoteAnsweredStep(c, k))
  {
    var i, count := k.ballot.candidate, c.el.counts[k.ballot];
    VoteRepliedKeeps(c.nodes[i], count, c.el.replies[k]);
    PutKeepsWf(c, i, VoteReplied(c.nodes[i], count, c.el.replies[k]).0);
    TallyWf(Put(c, i, VoteReplied(c.nodes[i], count, c.el.replies[k]).0).nodes, c.el, k, c.nodes[i].term,
            VoteReplied(c.nodes[i], count, c.el.replies[k]).1);
  }

  lemma TallyWf(nodes: seq<Node>, el: Elections, k: VoteKey, term: nat, count: nat)
    requires WfVotes(nodes, el) && k in el.replies && k.ballot in el.counts
    ensures WfVotes(nodes, Tally(el, k, term, count))
  {
  }

  lemma ClientStartWf(c: Cluster, i: nat, command: Op)
    requires Wf(c) && Alive(c, i)
    ensures Wf(ClientStartStep(c, i, command))
  {
    StartKeeps(c.nodes[i], command);
    PutKeepsWf(c, i, Start(c.nodes[i], command));
  }

  lemma HeartBeatWf(c: Cluster, i: nat)
    requires Wf(c) && Alive(c, i)
    ensures Wf(HeartBeatStep(c, i))
  {
    if c.nodes[i].status == Leader {
      SendingWf(c, i);
      if FirstBeatFault(c.nodes[i], 0).Some? {
        HaltWf(Sending(c, i), i, FirstBeatFault(c.nodes[i], 0).value);
      }
    }
  }

  lemma SendingWf(c: Cluster, i: nat)
    requires Wf(c) && i < |c.nodes|
    ensures Wf(Sending(c, i)) && Sending(c, i).nodes == c.nodes
  {
    BeatOfWf(c.nodes, i);
  }

  lemma HaltWf(c: Cluster, i: nat, a: Assertion)
    requires Wf(c) && i < |c.nodes|
    ensures Wf(Put(c, i, c.nodes[i].Halt(a)))
  {
    HaltKeeps(c.nodes[i], a);
    PutKeepsWf(c, i, c.nodes[i].Halt(a));
  }

  lemma BeatOfWf(nodes: seq<Node>, i: nat)
    requires WfNodes(nodes) && i < |nodes|
    ensures WfBeat(nodes, BeatOf(nodes[i]))
  {
    var b := BeatOf(nodes[i]);
    forall p | p in b.sent ensures p < |nodes| && p != b.leader && WfRequest(b, b.sent[p]) {
      AppendArgsWf(nodes[i], p);
    }
  }

  lemma AppendArgsWf(n: Node, p: nat)
    requires n.Valid() && p < n.peers && n.snapIndex < n.nextIndex[p] <= n.Last() + 1
    ensures var args := AppendArgsFor(n, p); args.End() == n.Last() && Contiguous(args.entries, args.prevIndex)
  {
  }

  lemma DeliverAppendWf(c: Cluster, k: AppendKey)
    requires Wf(c) && CanDeliverAppend(c, k)
    ensures Wf(DeliverAppendStep(c, k))
  {
    var args := c.re.beats[k.round].sent[k.peer];
    assert WfBeat(c.nodes, c.re.beats[k.round]);
    AppendEntriesKeeps(c.nodes[k.peer], args);
    PutKeepsWf(c, k.peer, AppendEntries(c.nodes[k.peer], args).0);
  }

  lemma AppendAnsweredWf(c: Cluster, k: AppendKey)
    requires Wf(c) && CanHandleAppend(c, k)
    ensures Wf(AppendAnsweredStep(c, k))
  {
    var b := c.re.beats[k.round];
    assert WfBeat(c.nodes, b);
    AppendRepliedKeeps(c.nodes[b.leader], k.peer, b.sent[k.peer], c.re.counts[k.round], c.re.replies[k]);
    PutKeepsWf(c, b.leader,
               AppendReplied(c.nodes[b.leader], k.peer, b.sent[k.peer], c.re.counts[k.round], c.re.replies[k]).0);
  }

  lemma TakeSnapshotWf(c: Cluster, i: nat, index: int)
    requires Wf(c) && Alive(c, i)
    ensures Wf(TakeSnapshotStep(c, i, index))
  {
    SnapshotKeeps(c.nodes[i], index);
    PutKeepsWf(c, i, Snapshot(c.nodes[i], index));
  }

  lemma SendSnapshotWf(c: Cluster, i: nat, peer: nat)
    requires Wf(c) && Alive(c, i) && (i, peer) in c.sn.threads
    ensures Wf(SendSnapshotStep(c, i, peer))
  {
  }

  lemma DeliverInstallWf(c: Cluster, k: nat)
    requires Wf(c) && CanDeliverInstall(c, k)
    ensures Wf(DeliverInstallStep(c, k))
  {
    var call := c.sn.installs[k];
    InstallSnapshotKeeps(c.nodes[call.peer], call.args);
    PutKeepsWf(c, call.peer, InstallSnapshot(c.nodes[call.peer], call.args).0);
  }

  lemma InstallAnsweredWf(c: Cluster, k: nat)
    requires Wf(c) && CanHandleInstall(c, k)
    ensures Wf(InstallAnsweredStep(c, k))
  {
    var call := c.sn.installs[k];
    SnapshotRepliedKeeps(c.nodes[call.sender], call.peer, call.args, c.sn.replies[k]);
    PutKeepsWf(c, call.sender, SnapshotReplied(c.nodes[call.sender], call.peer, call.args, c.sn.replies[k]));
  }

  lemma ApplyWf(c: Cluster, i: nat)
    requires Wf(c) && Alive(c, i)
    ensures Wf(ApplyStep(c, i))
  {
    ApplyLogsKeeps(c.nodes[i]);
    PutKeepsWf(c, i, ApplyLogs(c.nodes[i]).0);
  }

  lemma CrashWf(c: Cluster, i: nat)
    requires Wf(c) && i < |c.nodes|
    ensures Wf(CrashStep(c, i))
  {
    RestartKeeps(c.nodes[i]);
    PutKeepsWf(c, i, Restart(c.nodes[i]));
  }

  // ---------- what a step does to the nodes ----------

  ghost predicate AllKeep(nodes: seq<Node>, nodes': seq<Node>)
  {
    |nodes'| == |nodes| && forall i | 0 <= i < |nodes| :: Keeps(nodes[i], nodes'[i])
  }

  ghost predicate NoCoups(nodes: seq<Node>, nodes': seq<Node>)
  {
    |nodes'| == |nodes| && forall i | 0 <= i < |nodes| :: NoCoup(nodes[i], nodes'[i])
  }

  ghost predicate AllTrim(nodes: seq<Node>, nodes': seq<Node>)
  {
    |nodes'| == |nodes| && forall i | 0 <= i < |nodes| :: Trims(nodes[i], nodes'[i])
  }

  ghost predicate AllSame(nodes: seq<Node>, nodes': seq<Node>)
  {
    |nodes'| == |nodes| && forall i | 0 <= i < |nodes| :: SameLog(nodes[i], nodes'[i])
  }

  lemma OneMoves(nodes: seq<Node>, i: nat, n: Node)
    requires WfNodes(nodes) && i < |nodes| && Keeps(nodes[i], n)
    ensures AllKeep(nodes, nodes[i := n]) && (NoCoup(nodes[i], n) ==> NoCoups(nodes, nodes[i := n]))
    ensures Trims(nodes[i], n) ==> AllTrim(nodes, nodes[i := n])
    ensures SameLog(nodes[i], n) ==> AllTrim(nodes, nodes[i := n]) && AllSame(nodes, nodes[i := n])
  {
  }

  lemma NoneMoves(nodes: seq<Node>)
    requires WfNodes(nodes)
    ensures AllKeep(nodes, nodes) && NoCoups(nodes, nodes) && AllTrim(nodes, nodes) && AllSame(nodes, nodes)
  {
  }

  /** No step takes back an index, a durable term or a durable vote of any node. */
  lemma StepMoves(c: Cluster, e: Event)
    requires Wf(c)
    ensures AllKeep(c.nodes, Step(c, e).nodes)
    ensures !e.VoteAnswered? ==> NoCoups(c.nodes, Step(c, e).nodes)
    ensures !e.ClientStart? && !e.DeliverAppend? ==> AllTrim(c.nodes, Step(c, e).nodes)
    ensures !e.ClientStart? && !e.DeliverAppend? && !e.TakeSnapshot? && !e.DeliverInstall? ==>
              AllSame(c.nodes, Step(c, e).nodes)
  {
    hide Keeps, NoCoup, Trims, SameLog, AllKeep, NoCoups, AllTrim, AllSame, DoElection, RequestVote, VoteReplied;
    hide Start, Snapshot, InstallSnapshot;
    hide SnapshotReplied, ApplyLogs, Restart, AppendEntries, AppendReplied, FirstBeatFault;
    hide WfVotes, WfBeats, WfInstalls, Contiguous, Node.Durable;
    NoneMoves(c.nodes);
    match e
    case Elect(i) => if Alive(c, i) {
      DoElectionKeeps(c.nodes[i]);
      OneMoves(c.nodes, i, DoElection(c.nodes[i]));
    }
    case DeliverVote(k) => if CanDeliverVote(c, k) { DeliverVoteMoves(c, k); }
    case VoteAnswered(k) => if CanHandleVote(c, k) { VoteAnsweredMoves(c, k); }
    case ClientStart(i, command) => if Alive(c, i) {
      StartKeeps(c.nodes[i], command);
      OneMoves(c.nodes, i, Start(c.nodes[i], command));
    }
    case HeartBeat(i) => if Alive(c, i) && FirstBeatFault(c.nodes[i], 0).Some? {
      HaltKeeps(c.nodes[i], FirstBeatFault(c.nodes[i], 0).value);
      OneMoves(c.nodes, i, c.nodes[i].Halt(FirstBeatFault(c.nodes[i], 0).value));
    }
    case DeliverAppend(k) => if CanDeliverAppend(c, k) { DeliverAppendMoves(c, k); }
    case AppendAnswered(k) => if CanHandleAppend(c, k) { AppendAnsweredMoves(c, k); }
    case TakeSnapshot(i, index) => if Alive(c, i) {
      SnapshotKeeps(c.nodes[i], index);
      OneMoves(c.nodes, i, Snapshot(c.nodes[i], index));
    }
    case SendSnapshot(i, p) =>
    case DeliverInstall(k) => if CanDeliverInstall(c, k) { DeliverInstallMoves(c, k); }
    case InstallAnswered(k) => if CanHandleInstall(c, k) { InstallAnsweredMoves(c, k); }
    case Apply(i) => if Alive(c, i) {
      ApplyLogsKeeps(c.nodes[i]);
      OneMoves(c.nodes, i, ApplyLogs(c.nodes[i]).0);
    }
    case Crash(i) => if i < |c.nodes| {
      RestartKeeps(c.nodes[i]);
      OneMoves(c.nodes, i, Restart(c.nodes[i]));
    }
  }

  lemma DeliverVoteMoves(c: Cluster, k: VoteKey)
    requires Wf(c) && CanDeliverVote(c, k)
    ensures AllKeep(c.nodes, DeliverVoteStep(c, k).nodes) && NoCoups(c.nodes, DeliverVoteStep(c, k).nodes)
    ensures AllTrim(c.nodes, DeliverVoteStep(c, k).nodes) && AllSame(c.nodes, DeliverVoteStep(c, k).nodes)
  {
    RequestVoteKeeps(c.nodes[k.voter], c.el.ballots[k.ballot]);
    OneMoves(c.nodes, k.voter, RequestVote(c.nodes[k.voter], c.el.ballots[k.ballot]).0);
  }

  lemma VoteAnsweredMoves(c: Cluster, k: VoteKey)
    requires Wf(c) && CanHandleVote(c, k)
    ensures AllKeep(c.nodes, VoteAnsweredStep(c, k).nodes) && AllTrim(c.nodes, VoteAnsweredStep(c, k).nodes)
    ensures AllSame(c.nodes, VoteAnsweredStep(c, k).nodes)
  {
    var i, count := k.ballot.candidate, c.el.counts[k.ballot];
    VoteRepliedKeeps(c.nodes[i], count, c.el.replies[k]);
    OneMoves(c.nodes, i, VoteReplied(c.nodes[i], count, c.el.replies[k]).0);
  }

  lemma DeliverInstallMoves(c: Cluster, k: nat)
    requires Wf(c) && CanDeliverInstall(c, k)
    ensures AllKeep(c.nodes, DeliverInstallStep(c, k).nodes) && NoCoups(c.nodes, DeliverInstallStep(c, k).nodes)
    ensures AllTrim(c.nodes, DeliverInstallStep(c, k).nodes)
  {
    var call := c.sn.installs[k];
    InstallSnapshotKeeps(c.nodes[call.peer], call.args);
    OneMoves(c.nodes, call.peer, InstallSnapshot(c.nodes[call.peer], call.args).0);
  }

  lemma InstallAnsweredMoves(c: Cluster, k: nat)
    requires Wf(c) && CanHandleInstall(c, k)
    ensures AllKeep(c.nodes, InstallAnsweredStep(c, k).nodes) && NoCoups(c.nodes, InstallAnsweredStep(c, k).nodes)
    ensures AllTrim(c.nodes, InstallAnsweredStep(c, k).nodes) && AllSame(c.nodes, InstallAnsweredStep(c, k).nodes)
  {
    var call := c.sn.installs[k];
    SnapshotRepliedKeeps(c.nodes[call.sender], call.peer, call.args, c.sn.replies[k]);
    OneMoves(c.nodes, call.sender, SnapshotReplied(c.nodes[call.sender], call.peer, call.args, c.sn.replies[k]));
  }

  lemma DeliverAppendMoves(c: Cluster, k: AppendKey)
    requires Wf(c) && CanDeliverAppend(c, k)
    ensures var n' := AppendEntries(c.nodes[k.peer], c.re.beats[k.round].sent[k.peer]).0;
      && DeliverAppendStep(c, k).nodes == c.nodes[k.peer := n']
      && Keeps(c.nodes[k.peer], n') && NoCoup(c.nodes[k.peer], n')
      && AllKeep(c.nodes, DeliverAppendStep(c, k).nodes) && NoCoups(c.nodes, DeliverAppendStep(c, k).nodes)
  {
    var args := c.re.beats[k.round].sent[k.peer];
    assert WfBeat(c.nodes, c.re.beats[k.round]);
    AppendEntriesKeeps(c.nodes[k.peer], args);
    OneMoves(c.nodes, k.peer, AppendEntries(c.nodes[k.peer], args).0);
  }

  lemma AppendAnsweredMoves(c: Cluster, k: AppendKey)
    requires Wf(c) && CanHandleAppend(c, k)
    ensures var b := c.re.beats[k.round];
      && b.leader < |c.nodes| && k.peer in b.sent && k.peer < |c.nodes|
      && c.nodes[b.leader].Valid() && c.nodes[b.leader].peers == |c.nodes|
      && var n' := AppendReplied(c.nodes[b.leader], k.peer, b.sent[k.peer], c.re.counts[k.round], c.re.replies[k]).0;
      && AppendAnsweredStep(c, k).nodes == c.nodes[b.leader := n']
      && Keeps(c.nodes[b.leader], n') && NoCoup(c.nodes[b.leader], n')
      && AllKeep(c.nodes, AppendAnsweredStep(c, k).nodes) && NoCoups(c.nodes, AppendAnsweredStep(c, k).nodes)
      && AllTrim(c.nodes, AppendAnsweredStep(c, k).nodes) && AllSame(c.nodes, AppendAnsweredStep(c, k).nodes)
  {
    var b := c.re.beats[k.round];
    assert WfBeat(c.nodes, b);
    AppendRepliedKeeps(c.nodes[b.leader], k.peer, b.sent[k.peer], c.re.counts[k.round], c.re.replies[k]);
    OneMoves(c.nodes, b.leader,
             AppendReplied(c.nodes[b.leader], k.peer, b.sent[k.peer], c.re.counts[k.round], c.re.replies[k]).0);
  }
}
