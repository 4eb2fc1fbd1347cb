# A verified model of the replicated key-value store

This project models the hard core of the repository in Dafny 4.11 and proves what it is meant to guarantee:

- **Raft** (`src/raftCore/raft.cpp`): elections, log replication with conflict back-off, majority commit,
  snapshots that shift the log, persistence and restart, on one node and on a whole cluster.
- **The skip list** (`src/skipList/include/skipList.h`) and the **key-value state machine** on top of it
  (`src/raftCore/KvServer.cpp`): per-client duplicate suppression, snapshots, wait channels.
- **The timer manager** (`src/fiber/timer.cpp`): a set whose keys move, expiry, and a flag that must not lose a
  wake-up.

`dafny verify dfyconfig.toml` checks all of it.

## How it is built

**One node, twice.** `RaftServer.Raft` is the node as the source writes it: a class with the fields of `raft.h`, one
method per locked region, loops where the source has loops. Each method is proved equal to a function in `RaftNode`,
and everything about clusters is proved about those functions. `Rules` proves of each of them, field by field and
without naming another of them, what a message or an answer does to one node: the rules of figures 2 and 13 of the
Raft paper, or what the code does instead.

**The cluster** (`RaftCluster`) is a step function over node values. Every sequence of events is a run: an event that
is not possible where it stands changes nothing. Steps are the locked regions, a crash with restart, the delivery of
a request, and the handling of a reply. Requests may be lost (never delivered), late, or reordered; a call is answered
at most once and its reply handled at most once, because the counters of `sendRequestVote` and `sendAppendEntries`
count replies. A crash at any moment throws away memory, the counters of calls in flight, and waiting callers. The
disk is a field of the node, written exactly where the source calls `persist` or `Save`. Tickers and timeouts are
events that may happen at any time. A failed run-time assertion ends the process: the node halts until it restarts;
the calls it started before, as in a heartbeat that fails at a later peer, go out.
`At(n, events, k)` is the cluster of n nodes after the first k events; the theorems are about all n, all event
sequences and all k.

History fields (who voted for whom, what a leader's log was when it won, who held which entry when, what was
delivered) are read by no step; only invariants and theorems mention them.

**What holds in every run.** At most one leader per term, at any two times of a run; one vote per node and term across
restarts; one command per index and term in any log, disk or message; log and disk shape; the last index of a node never
decreases; deliveries in order. What passes between nodes can be relied on (`Answers`): an answer carries the term its
sender was in when it gave it, a leader or candidate that hears of a newer term that way steps down to it, and no node
ever counts a peer as holding more than the peer's log reaches. Of the assertions in the handlers, only the one on the
previous index in `getSlicesIndexFromLogIndex` can fail: `OvershootCounterexample` is a run with a snapshot in which it
does. In runs without snapshots no assertion fails, and in clean runs none fails either, with snapshots or without.

**Whole logs.** A snapshot drops the front of a log, and an installed one replaces it by an index and a term. To say
what the nodes agree on, `Shadows` runs a second cluster beside each run, in which no node ever drops an entry: it takes
the same steps (elections, requests, replies, commands), and where a node only looks at its snapshot boundary (a
refusal, a snapshot taken, sent or installed, a restart) its node becomes the same node with its log whole; an installed
snapshot brings the entries its sender had dropped. `Shadows.StepShadows` proves, for every event of every run, that
each node is its shadow with the front of the log cut off. The invariants of the paper are then kept by a cluster
without snapshots, and the theorems carry over. No step of the nodes reads the shadow.

**What holds in clean runs.** `appendEntriesimpl` overwrites a conflicting entry but does not drop what follows it
(`src/raftCore/raft.cpp:521-524`), where the Raft paper (Ongaro and Ousterhout, extended version, section 5.3)
truncates. So Log Matching, Leader Completeness and State Machine Safety are false for all runs of this code:
`TailCounterexample` is a run of five nodes in which two servers apply different commands at index 1. `PaperRule` proves
that the code leaves the paper's log if and only if the request is *clean*: it meets no conflicting term, or it reaches
the end of the follower's log; and `installSnapshotImpl`, which keeps the log behind a snapshot without looking at the
term, leaves the log of section 7 if and only if the log ends at or before the snapshot or holds its last entry. A run
is clean when every accepted request and every snapshot taken over is clean in this sense. For those runs, snapshots and
crashes included, `Agreement` proves the three theorems in full, for whole logs at any two times and for what the nodes
still show of them; and `CleanProgress` that no assertion fails and that a leader brings any follower up to date. Both
counterexamples are runs that are not clean.

**The service.** `Services` puts the key-value server of each node on top of the cluster: the apply channel, the applier
that pushes commands into it in order, the thread of each installed snapshot that pushes it whenever it gets there, the
images on disk and in snapshot calls, and the apply thread, which carries out commands, loads snapshots over the table
it holds, and takes snapshots. In a clean run of Raft a server can still leave the state that the log says, and
`Replicas.ProperIffFits` says exactly when: every command is carried out on the state of the log in front of it, and
every snapshot leaves the state of the log behind it, if and only if every message *fits*. A command fits when nothing
takes effect between where the server stands and the command; a snapshot further on, when it has every pair that the
server holds; a snapshot the server has passed, when no id was registered since. As long as every message fits, servers
that have come equally far have equal tables and ids, and every image on a disk, in a call or in the channel is one of
the log. Where no snapshot is overtaken on its way to its server, commands always come in turn, and only the snapshots
decide (`HandOver`). The two ways a snapshot goes wrong are real: `StaleTable` is a clean run, all messages in order, in
which a follower keeps the old value of a key behind the new snapshot (existing keys keep their value in `loadFile`);
and a server that loads a snapshot it has passed forgets a write it has carried out (`Replicas.WriteForgotten`), so that
the client's retry would take effect twice.

One more place where the code does not do what it is for: `detectClockRollover` subtracts in unsigned arithmetic, so in
the first hour of the clock any step back counts as a rollover (`Timers.RolloverExactly`); and because `listExpiredCb`
reads the clock before it takes the lock, two threads can produce such a step back although the clock never goes back. A
sleeper can then miss a repeating timer (`Timers.StaleReading`); it does exactly if the flag is down and a repeating
timer that fires is armed again for an earlier time than the sleeper was told (`Timers.TimerManager.ListExpiredCb`).

**Objects.** The skip list is nodes with link arrays on the heap. A ghost sequence lists the nodes in key order, and
the invariant says where each link of each node leads; coin tosses are parameters, so every outcome is covered. Keys
are compared as `std::string` does. The timer set is a sequence of timer objects in the order of due time and
address; addresses are assumed to tell live timers apart.

## Modules

| file | content |
|---|---|
| RaftTypes, RaftNode, NodeInvariants | data; the locked regions as functions; what each keeps |
| Rules | what each message and each answer does to one node |
| RaftServer | the imperative node |
| RaftCluster, Quorums | steps, runs, well-formedness; majorities |
| ElectionSafety, EntryIdentity, Commitment, NodeHistory, Deliveries | every run |
| Answers | every run: what answers tell, and what they do to the node that asked |
| FullLogs, Shadows, ShadowRuns | whole logs: the shadow of a node, of a step, of a run |
| SnapshotFree, CatchUp | runs without snapshots; the heartbeat/reject loop |
| PaperRule, CleanRuns | where code and paper part |
| ConcreteSteps, TailCounterexample, OvershootCounterexample | concrete runs of five nodes |
| LogAlgebra, MatchingSteps, CompletenessSteps, SafetySteps | what a clean step without snapshots keeps |
| CleanShadows, Agreement, CleanProgress | clean runs, snapshots included: the invariants, and the theorems |
| StringOrder, Entries, Tower, SkipLists, Levels | the skip list |
| KvMachine, KvServers | the state machine, and the imperative server |
| Services, ServerStates, ServerSteps | servers on Raft: the steps, what is right, what Raft keeps right |
| Replicas, HandOver, StaleTable | when servers are right, in what order they are handed things, a run in which they differ |
| Timers | the timer manager |

## Model

| member | source | states |
|---|---|---|
| ElectionSafety.ElectionSafety | src/raftCore/raft.cpp:367-420 | in every run, two nodes that are leader in one term, at whatever two times, are the same node |
| ElectionSafety.MajorityIsFirst | src/raftCore/raft.cpp:398-407 | the counter of an election can reach a majority only while its term has no leader, and the voters counted then are a majority: the reset of the counter cannot crown twice |
| ElectionSafety.StepKeepsElected | src/raftCore/raft.cpp:564-611 | every step keeps the election invariant: votes on disk, granted replies backed by votes, counters bounded by voters counted, a majority behind each leader |
| ElectionSafety.LeadersStay | src/raftCore/raft.cpp:405 | the leader recorded for a term is never replaced later in a run |
| ElectionSafety.VoteWins | src/raftCore/raft.cpp:398-412 | the reply that completes a majority crowns a node of the election's own term, never one that leads already: the "leader twice" assertion does not fail |
| Quorums.Intersect | src/raftCore/raft.cpp:399 | two majorities of n nodes share a node |
| NodeHistory.OneVotePerTerm | src/raftCore/raft.cpp:594-609 | a node grants its vote in a term to one candidate only, across lost memory and restarts |
| NodeHistory.CandidatesVoteForThemselves | src/raftCore/raft.cpp:706-711 | a node that stood in a term grants no other candidate its vote in that term |
| NodeHistory.AlwaysSound | src/raftCore/raft.cpp:994-1049 | at every lock release of every run: indices contiguous above the snapshot, snapshot <= lastApplied <= last, commit <= last, the disk equal to memory in log and snapshot, its term and vote behind only while memory has a newer term without a vote |
| NodeHistory.NeverBack | src/raftCore/raft.cpp:505-541 | over any stretch of a run no node loses its last index, snapshot index, durable term or durable vote |
| NodeHistory.FreshIndices | src/raftCore/KvServer.cpp:160-166 | commands a node takes are told strictly increasing indices, so no two requests share a wait channel |
| EntryIdentity.SameIndexAndTermSameCommand | src/raftCore/raft.cpp:511-518 | in every run, two entries with one index and term, found at any times in any logs, disks or requests, are equal |
| EntryIdentity.NoClash | src/raftCore/raft.cpp:511-518 | known entries laid over a known log never meet another command, so the conflict assertion does not fail |
| EntryIdentity.ClientStartKeeps | src/raftCore/raft.cpp:424-452 | a leader makes an entry at an index and term for which none was made before |
| EntryIdentity.StepKeepsTraced | src/raftCore/raft.cpp:503-531 | every step keeps every entry anywhere traceable to the one command created for its index and term |
| ShadowRuns.CommitHasMajority | src/raftCore/raft.cpp:337-355 | in every run, when a leader's commitIndex moves to N there is a majority, the leader in it, each of which held one and the same entry N of the leader's term when it sent or answered: in its log, or in the whole log its snapshot cut |
| ShadowRuns.StepKeepsSane | src/raftCore/raft.cpp:958-987 | every step keeps whole logs, and what snapshots on their way stand for, made of proposed commands, and each commit backed by a majority of whole logs |
| Shadows.StepShadows | src/raftCore/raft.cpp:614-665 | every event of every run leaves each node the shadow's node with the front of its log cut off, with the same calls, replies, votes, deliveries and commits |
| FullLogs.AcceptMirror | src/raftCore/raft.cpp:488-531 | a node accepts and lays over a request exactly as it would with its whole log |
| FullLogs.InstallMirror | src/raftCore/raft.cpp:633-648 | an installed snapshot is its entries in front of what the node had behind them |
| Commitment.FollowerCommitBounded | src/raftCore/raft.cpp:534-541 | in every run a follower's commitIndex set by AppendEntries does not pass prev + number of entries |
| Commitment.StaleReplyChangesNothing | src/raftCore/raft.cpp:291-329 | a reply to a request of an older term changes no nextIndex, matchIndex, commitIndex or success count of the node in its newer term |
| Commitment.OnlyOneAssertionCanFail | src/raftCore/raft.cpp:822-833 | in every run a node that died of an assertion died of the one on the previous index |
| Commitment.StepKeepsReplicating | src/raftCore/raft.cpp:455-561 | every step keeps requests to the end of the log, honest replies, counters bounded by holders, and a majority of holders behind each commit |
| Deliveries.DeliveryOrder | src/raftCore/raft.cpp:768-791 | in every run, since its last start a node delivered strictly increasing indices, with gaps only where its snapshot covers them, all indices between snapshot and lastApplied, and only commands some leader put at that index |
| Deliveries.ApplyKeepsOrder | src/raftCore/raft.cpp:774-788 | one getApplyLogs call continues the deliveries without a hole or a repetition |
| Answers.AppendAnswerTells | src/raftCore/raft.cpp:462-561 | in every run the answer to a replication request carries the term its sender is in once it has given it |
| Answers.VoteAnswerTells | src/raftCore/raft.cpp:571-610 | in every run the same holds of an answer to a vote request |
| Answers.InstallAnswerTells | src/raftCore/raft.cpp:617-664 | in every run an answer to a snapshot call that is no newer than the call comes from a node that was then in the call's term with a snapshot at least as far; any other tells its sender's newer term |
| Answers.OvertakenByAnswer | src/raftCore/raft.cpp:291-296 | in every run, a node that handles the answer of a peer which was in a newer term when it answered is a follower of that term, without a vote, and nothing else of it has changed; one that still leads was not overtaken |
| Answers.OvertakenByVote | src/raftCore/raft.cpp:383-389 | the same for a vote request's answer, with the new term on disk |
| Answers.SnapshotAnswers | src/raftCore/raft.cpp:924-940 | in every run, handling the answer to a snapshot call raises the peer's matchIndex, to the call's index, only if the peer had a snapshot that far when it answered; a peer that was in a newer term then deposes the sender, with matchIndex and nextIndex as they were |
| Answers.MatchIsHeld | src/raftCore/raft.cpp:328-329 | in every run, at any time, the matchIndex a node has for a peer is no higher than the last index of the peer's log |
| Answers.StepKeepsBelieving | src/raftCore/raft.cpp:189-665 | every step keeps that, with each success and each snapshot answer on its way standing for something its sender holds |
| SnapshotFree.NoAssertionFails | src/raftCore/raft.cpp:204-332 | in every run without snapshots, clean or not, no run-time assertion fails on any node |
| SnapshotFree.FollowersCatchUp | src/raftCore/raft.cpp:313-329 | stop such a run anywhere: heartbeats from a leader to a follower of no newer term end in success within nextIndex + 2 rounds |
| CatchUp.CatchesUp | src/raftCore/raft.cpp:204-221 | agreeing at the follower's snapshot boundary, leader and follower are in step after nextIndex + 2 rounds and stay so, snapshots included |
| CatchUp.BoundaryDecides | src/raftCore/raft.cpp:488-499 | for two logs with the matching property the loop succeeds if and only if they agree at that boundary |
| CatchUp.NeverCatchesUp | src/raftCore/raft.cpp:545-560 | logs that agree at no index from the follower's snapshot on are never brought in step, however many rounds |
| CatchUp.RejectRound | src/raftCore/raft.cpp:545-560 | a short log or a mismatch strictly lowers nextIndex and keeps it at 1 or more |
| CatchUp.SnapshotRound | src/raftCore/raft.cpp:939-940 | a round that sends a snapshot puts nextIndex just behind it, where the next request matches or is redirected to the follower's own snapshot |
| CatchUp.MatchRound | src/raftCore/raft.cpp:319-329 | a round that matches leaves both in step |
| PaperRule.AcceptedRequests | src/raftCore/raft.cpp:503-531 | in every run an accepted request succeeds, lays its entries over the log index by index, keeps the tail beyond them, and leaves the log of the paper's rule if and only if it is clean |
| PaperRule.SpliceIsPaper | src/raftCore/raft.cpp:505-527 | overwriting equals truncate-and-append if and only if nothing conflicts or there is no tail to drop |
| PaperRule.PaperOutcome | src/raftCore/raft.cpp:505-527 | the paper's recursive rule leaves the log as it was, or the log up to prev followed by all entries |
| PaperRule.AppendOutcome | src/raftCore/raft.cpp:455-561 | all outcomes of one request whose entries are numbered from prev + 1, as every leader numbers them: when it succeeds, when it halts, which entries and which commitIndex it leaves |
| PaperRule.SnapshotOutcome | src/raftCore/raft.cpp:958-987 | a snapshot drops what it covers and no other entry, term or index; covered or uncommitted indices change nothing |
| PaperRule.InstallIsPaper | src/raftCore/raft.cpp:638-648 | an installed snapshot leaves the log of the paper's section 7 if and only if the log ends at or before it or holds its last entry |
| CleanRuns.StepKeepsPlain | src/raftCore/raft.cpp:208-217 | without snapshots taken none is ever sent or installed, and only appends and client commands change logs |
| Agreement.Whole | src/raftCore/raft.cpp:958-987 | a node's log is the end of its whole log, its snapshot index and term the entry before |
| Agreement.LogMatching | src/raftCore/raft.cpp:503-526 | in clean runs, snapshots included, two nodes at any times that show one term at an index, in the log or as snapshot boundary, have whole logs equal up to it, and show the same |
| Agreement.RequestMatching | src/raftCore/raft.cpp:226-244 | in clean runs the same holds between a whole log and the entries of any request, delivered or not |
| MatchingSteps.StepKeepsMatching | src/raftCore/raft.cpp:424-452 | every clean step of a cluster without snapshots keeps each entry standing on what the leader of its term had before it |
| CleanShadows.StepKeepsSettled | src/raftCore/raft.cpp:614-665 | every clean step, snapshots included, keeps the shadow's invariants, and every snapshot taken, sent or installed standing for committed entries |
| CleanShadows.WinnerUnmoved | src/raftCore/raft.cpp:398-412 | a candidate may be overwritten by a snapshot and still collect votes, but one that wins has the log it stood with |
| LogAlgebra.CleanSplice | src/raftCore/raft.cpp:505-527 | a clean request leaves the leader's log up to its end as a prefix, and otherwise the leader's or the old log |
| LogAlgebra.SamePrefix | src/raftCore/raft.cpp:864-868 | logs whose entries stand on their leaders' logs agree below any index where they agree |
| Agreement.LeaderCompleteness | src/raftCore/raft.cpp:337-355 | in clean runs, snapshots included, everything a leader has committed when its commitIndex moves is a prefix of the whole log of every node leading a later term, at any time, and shows as such |
| CompletenessSteps.Completeness | src/raftCore/raft.cpp:891-896 | the induction over terms behind it: a quorum that held the entry meets the quorum that elected the later leader |
| CompletenessSteps.CandidateComplete | src/raftCore/raft.cpp:891-896 | the same for any candidate that a majority voted for, crowned or not |
| CompletenessSteps.UpToDateCarries | src/raftCore/raft.cpp:891-896 | a candidate that passes the up-to-date check against a log with a committed prefix has that prefix |
| Agreement.StateMachineSafety | src/raftCore/raft.cpp:774-788 | in clean runs, snapshots included, two nodes are never given different commands at one index, at any two times |
| Agreement.CommittedAgree | src/raftCore/raft.cpp:534-541 | in clean runs any two whole logs at any times agree on every index both have committed or snapshotted |
| Agreement.SnapshotsAgree | src/raftCore/raft.cpp:907-940 | in clean runs a snapshot on its way stands for exactly the entries, and the term, that every node sure of its index has there |
| Agreement.DeliveredCommand | src/raftCore/raft.cpp:774-788 | in clean runs whatever any node ever delivered is the command in the whole log of every node sure of that index |
| Agreement.DeliveriesAgree | src/raftCore/raft.cpp:738-765 | in clean runs any two messages for one index, delivered by any nodes at any times, are the same |
| SafetySteps.StepKeepsApplying | src/raftCore/raft.cpp:534-541 | every clean step of a cluster without snapshots keeps each commitIndex, in nodes and requests, backed by a commit of some leader |
| CleanProgress.NoAssertionFails | src/raftCore/raft.cpp:204-332 | in clean runs, snapshots included, no run-time assertion fails on any node, the one on the previous index (lines 826-828) included |
| CleanProgress.FollowersCatchUp | src/raftCore/raft.cpp:204-329 | stop a clean run anywhere: heartbeats and snapshots from a leader to a follower of no newer term end in success within nextIndex + 2 rounds |
| TailCounterexample.StateMachinesDiverge | src/raftCore/raft.cpp:521-524 | in a concrete run that is not clean two servers apply different commands at index 1 |
| TailCounterexample.LeaderLacksCommitted | src/raftCore/raft.cpp:891-896 | in that run a leader of term 3 lacks an entry committed in term 2 |
| TailCounterexample.LogsDoNotMatch | src/raftCore/raft.cpp:521-524 | in that run one node holds one entry at index 2 on top of two different entries |
| OvershootCounterexample.AssertionFails | src/raftCore/raft.cpp:826-828 | with snapshots the assertion on the previous index does fail: in a concrete run a leader is sent behind the snapshot of a follower, which has applied what it snapshotted, past its own log, and its next heartbeat dies |
| OvershootCounterexample.RunIsNotClean | src/raftCore/raft.cpp:521-524 | that run is outside the clean runs |
| TailCounterexample.RunIsNotClean | src/raftCore/raft.cpp:521-524 | its run is outside the clean runs too |
| RaftCluster.StepMoves | src/raftCore/raft.cpp:189-665 | no step takes back an index, a durable term or a durable vote; only a counted majority makes a leader; only appends, commands and snapshots touch logs |
| RaftCluster.StepKeepsWf | src/raftCore/raft.cpp:189-665 | every step keeps the cluster well formed: sound nodes, answers only to calls made, requests that end where their leader's log did |
| RaftCluster.NoBeatFault | src/raftCore/raft.cpp:204-219 | a heartbeat meets no assertion if and only if every peer's nextIndex lies in 1 to last index + 1 |
| Rules.ReceiversKeepUp | src/raftCore/raft.cpp:462-664 | whoever receives a message ends in the later of the two terms and says so in the answer, unless it halts or has the snapshot already |
| Rules.NewerMessageDeposes | src/raftCore/raft.cpp:475-485 | a message of a newer term leaves a follower whose only vote, if any, is the one it grants with it |
| Rules.OlderMessageRefused | src/raftCore/raft.cpp:571-576 | a message of an older term is refused and changes nothing in memory, and the answer tells the receiver's term |
| Rules.NewerAnswerDeposes | src/raftCore/raft.cpp:291-296 | an answer of a newer term leaves a follower of that term without a vote; log, indices and counters stay, and the disk as well for a replication answer, while the other two save |
| Rules.OlderAnswerDropped | src/raftCore/raft.cpp:298-309 | an answer of an older term, or to a call of another term than the node's, changes nothing |
| Rules.Standing | src/raftCore/raft.cpp:703-727 | a node that stands is candidate of the next term with its own vote, on disk before it asks, and asks with the index and term its log ends with; a leader does not stand |
| Rules.Voting | src/raftCore/raft.cpp:571-610 | a vote is granted if and only if the term is not over, the vote is free or the candidate's, and the voter's log does not end later; term and vote are then on disk, nothing else changes |
| Rules.Counting | src/raftCore/raft.cpp:394-412 | a granted vote counts; with more than half of the nodes the candidate leads, every nextIndex one past its log, every matchIndex 0, and the counter at 0 |
| Rules.Appending | src/raftCore/raft.cpp:436-449 | a command becomes the last entry of a leader's log, one past its end and of its term, and is on disk; on others nothing changes |
| Rules.Asking | src/raftCore/raft.cpp:223-252 | a request to a peer carries exactly the entries from its nextIndex to the end of the log, what stands in front of them, and the commitIndex |
| Rules.Beating | src/raftCore/raft.cpp:197-258 | a heartbeat serves exactly the other nodes in front of the first whose nextIndex is below 1 or past the log's end plus one, where it fails, or all: with a snapshot where the snapshot covers the nextIndex, else with a request |
| Rules.Accepting | src/raftCore/raft.cpp:503-544 | a request whose previous entry the node has leaves the request's entries and the old tail beyond them, on disk; the commitIndex follows the leader's as far as the log goes; the answer is a success of the request's term |
| Rules.Clashing | src/raftCore/raft.cpp:511-518 | another command under one index and term ends the process with the disk as it was |
| Rules.Refusing | src/raftCore/raft.cpp:488-560 | a request whose previous entry the node does not have leaves log and commitIndex, saves the term, and is refused in the request's term with an index to go on from |
| Rules.BackOffRun | src/raftCore/raft.cpp:547-556 | that index starts the run of equal terms around the previous index, or is the given one if the run reaches the snapshot |
| Rules.Refused | src/raftCore/raft.cpp:313-320 | a refusal moves this peer's nextIndex to the index it names, if it names one, and changes nothing else |
| Rules.Matched | src/raftCore/raft.cpp:322-355 | a success raises the peer's matchIndex to what the request covered and nextIndex behind it; with more than half of the nodes the commitIndex moves to the request's end exactly if its last entry is of the leader's term, and never back |
| Rules.MatchedTooFar | src/raftCore/raft.cpp:330-333 | a success for more than the leader's log ends the process |
| Rules.Applying | src/raftCore/raft.cpp:768-791 | the commands from behind lastApplied up to commitIndex are handed over in order, and only lastApplied moves |
| Rules.Snapshotting | src/raftCore/raft.cpp:958-987 | a snapshot taken moves the boundary and drops the log up to it, on disk; commitIndex stays |
| Rules.Installing | src/raftCore/raft.cpp:617-664 | a snapshot call of no older term makes a follower; a boundary further on than the node's own is taken over, what it covers counting as committed and applied, any other changes nothing else and is answered 0 |
| Rules.SnapshotAnswered | src/raftCore/raft.cpp:921-940 | an answer of no newer term, while the sender leads in the call's term, sets this peer's matchIndex to the call's index and its nextIndex one further |
| Rules.Restarting | src/raftCore/raft.cpp:18-44 | a restart gives back what was on disk and forgets the rest; only what the snapshot covers counts as applied, nothing as committed |
| Rules.FirstStart | src/raftCore/raft.cpp:18-33 | a node that never saved starts in term 0 as a follower with no vote, no log and no snapshot |
| NodeInvariants.AppendEntriesKeeps | src/raftCore/raft.cpp:455-561 | whatever request with entries numbered from prev + 1 arrives, the node stays sound and takes back nothing |
| NodeInvariants.RequestVoteKeeps | src/raftCore/raft.cpp:564-611 | whatever a candidate sends, the node stays sound, keeps its log and a vote it has on disk |
| NodeInvariants.VoteRepliedKeeps | src/raftCore/raft.cpp:382-412 | whatever a voter answers, a granted vote being of no newer term than the one on the candidate's disk, the node stays sound and keeps its log |
| NodeInvariants.AppendRepliedKeeps | src/raftCore/raft.cpp:288-360 | whatever a follower answers, the node stays sound, keeps its log and makes no leader |
| NodeInvariants.SnapshotKeeps | src/raftCore/raft.cpp:958-987 | taking a snapshot keeps the node sound and drops entries only to a newer snapshot |
| NodeInvariants.InstallSnapshotKeeps | src/raftCore/raft.cpp:614-665 | installing one keeps the node sound and drops entries only to a newer snapshot |
| NodeInvariants.RestartKeeps | src/raftCore/raft.cpp:18-44 | a restart from disk leaves a sound node with the same log |
| RaftServer.Raft.constructor | src/raftCore/raft.cpp:8-44 | start-up is the boot from disk: follower, commitIndex 0, lastApplied at the snapshot |
| RaftServer.Raft.DoElection | src/raftCore/raft.cpp:699-734 | the new term, vote and saved state, and one vote request per peer with the node's last index and term |
| RaftServer.Raft.RequestVoteImpl | src/raftCore/raft.cpp:564-611 | new state and reply are those of the vote rule |
| RaftServer.Raft.VoteReplied | src/raftCore/raft.cpp:382-412 | new state and counter are those of the counting rule, with next and match indices reset on a win |
| RaftServer.Raft.Start | src/raftCore/raft.cpp:424-452 | a leader appends the command one past its log, saves, and tells that index and its term; others change nothing |
| RaftServer.Raft.DoHeartBeat | src/raftCore/raft.cpp:189-267 | exactly one request per peer within the log and one snapshot thread per peer behind it, every request reaching the end of the log; when an assertion fails, the first that does, exactly for the peers before it |
| RaftServer.Raft.AppendEntriesImpl | src/raftCore/raft.cpp:455-561 | for a request with entries numbered from prev + 1, new state and reply are those of the replication rule |
| RaftServer.Raft.LayOver | src/raftCore/raft.cpp:505-527 | the loop over entries numbered from prev + 1 computes the overlay and stops exactly at a clash of commands |
| RaftServer.Raft.SuggestNext | src/raftCore/raft.cpp:547-556 | the backward loop finds the last index of another term |
| RaftServer.Raft.AppendReplied | src/raftCore/raft.cpp:288-360 | new indices, commitIndex and counter are those of the reply rule |
| RaftServer.Raft.GetApplyLogs | src/raftCore/raft.cpp:768-791 | one message per index after lastApplied up to commitIndex, each with the log's command |
| RaftServer.Raft.Snapshot | src/raftCore/raft.cpp:958-987 | the new state is that of the snapshot rule and the last index stays |
| RaftServer.Raft.InstallSnapshotImpl | src/raftCore/raft.cpp:614-665 | new state and reply term are those of the install rule |
| RaftServer.Raft.SnapshotReplied | src/raftCore/raft.cpp:921-940 | the new state is that of the snapshot reply rule |
| StringOrder.Transitive | src/skipList/include/skipList.h:193 | the key order is transitive |
| StringOrder.Total | src/skipList/include/skipList.h:193 | of two keys one is smaller or they are equal |
| StringOrder.FirstDifference | src/skipList/include/skipList.h:193 | the first position where two keys differ decides by the smaller character, and a proper prefix comes first |
| Tower.NextIndex | src/skipList/include/skipList.h:193-195 | the next position that reaches a level, and none between |
| Tower.FoundAtRank | src/skipList/include/skipList.h:200-205 | a key is in the list only where a scan of level 0 for it stops |
| Tower.NextInserted | src/skipList/include/skipList.h:222-225 | after an insertion every link is as before except at the node before the new one on each of its levels |
| Tower.NextRemoved | src/skipList/include/skipList.h:276-283 | after a removal only the links that led to the node change, to where it led |
| Tower.Link | src/skipList/include/skipList.h:222-225 | the relinking loop leaves every link of every node leading to the next node of its level, the new node included |
| Tower.Unlink | src/skipList/include/skipList.h:276-283 | the unlinking loop with its early exit does so for the list without the node |
| SkipLists.SkipList.constructor | src/skipList/include/skipList.h:122-128 | a new list is valid and empty |
| SkipLists.SkipList.Advance | src/skipList/include/skipList.h:193-195 | the inner loop stops where its level crosses the place of the key |
| SkipLists.SkipList.Descend | src/skipList/include/skipList.h:192-200 | the search from the top ends where a level-0 scan does, with the crossing of every level recorded |
| SkipLists.SkipList.SearchElement | src/skipList/include/skipList.h:234-256 | found if and only if the key is in the map, with its value |
| SkipLists.SkipList.GetRandomLevel | src/skipList/include/skipList.h:141-148 | one more than the leading heads, capped at the maximum |
| SkipLists.LevelOfCoins | src/skipList/include/skipList.h:141-148 | the number of heads before the first tail, plus one, capped at the maximum, is the level |
| SkipLists.SkipList.InsertElementNoBlock | src/skipList/include/skipList.h:186-231 | 1 and no change for a key in the map, else 0 and the map with the pair; the current level rises to the new node's level and no further |
| SkipLists.SkipList.DeleteElement | src/skipList/include/skipList.h:259-299 | the map without the key, and the list valid again with empty top levels gone |
| SkipLists.SkipList.InsertSetElement | src/skipList/include/skipList.h:303-310 | the map with the key set to the value |
| SkipLists.SkipList.Size | src/skipList/include/skipList.h:73 | elementCount is the size of the map |
| SkipLists.SkipList.DumpFile | src/skipList/include/skipList.h:315-330 | the dump is the pairs in key order, and as a map the contents |
| SkipLists.SkipList.LoadFile | src/skipList/include/skipList.h:334-347 | loading a dump D into a list with map M gives D overridden by M |
| SkipLists.RankDecides | src/skipList/include/skipList.h:200-205 | membership and value of a key are decided at its rank |
| Entries.LoadedOverridden | src/skipList/include/skipList.h:343-346 | inserting the pairs of a dump one by one, existing keys kept, is the map union in which the existing map wins |
| Entries.DumpRestores | src/skipList/include/skipList.h:315-347 | a dump loaded into an empty list gives back the map |
| Levels.LevelsOf | src/skipList/include/skipList.h:186-310 | following the pointers of a level visits exactly the nodes that reach it, in strictly ascending order, all of them on the level below, and every node on level 0; the header is null above the current level and not on it |
| Levels.LevelIsChain | src/skipList/include/skipList.h:222-225 | a level walked by pointers is the list of the nodes that reach it |
| Levels.LevelInLevelBelow | src/skipList/include/skipList.h:222-225 | each level is the one below, thinned out by height |
| KvMachine.AtMostOnce | src/raftCore/KvServer.cpp:306-313 | writes that take effect have strictly increasing ids per client, all new to the start and all known at the end: none takes effect twice |
| KvMachine.DuplicateExactly | src/raftCore/KvServer.cpp:372-380 | an id is a duplicate if and only if the start or an earlier write of the client had one at least as high |
| KvMachine.RunIsEffective | src/raftCore/KvServer.cpp:86-123 | the table after any commands is that of the effective writes carried out one after the other |
| KvMachine.OneCommand | src/raftCore/KvServer.cpp:86-123 | a new Put leaves the table with the key at its value, a new Append at the old value, or nothing, followed by its value, and either records the id; a command seen before, and any other operation, changes nothing |
| KvMachine.ValueOfKey | src/raftCore/KvServer.cpp:86-123 | after any commands a key has the value of its last effective Put, or what it started with, followed by the values of the effective Appends since, in order; it is there if and only if it was or an effective write named it |
| KvMachine.RestoreAndReplay | src/raftCore/include/KvServer.h:96-111 | a snapshot after the first i commands, loaded into a fresh server, and then the rest gives the table and ids of applying them all |
| KvMachine.RestoredExactly | src/raftCore/include/KvServer.h:105-111 | loading a snapshot over a table gives the snapshot's table if and only if everything held is in the snapshot with the same value |
| KvMachine.LoadAhead | src/raftCore/KvServer.cpp:324-333 | a snapshot of a later state, loaded, gives that state if and only if that state has every pair held |
| KvMachine.LoadBehind | src/raftCore/KvServer.cpp:324-333 | a snapshot of an earlier state, loaded, changes no value and takes the ids back to it, so the state stays if and only if no id has moved since |
| KvMachine.UnchangedExactly | src/raftCore/KvServer.cpp:306-313 | commands leave the state as it is if and only if none of them takes effect |
| KvServers.KvServer.constructor | src/raftCore/KvServer.cpp:62-70 | a server starts empty or from the snapshot on disk |
| KvServers.KvServer.GetCommandFromRaft | src/raftCore/KvServer.cpp:290-321 | one command is one step of the machine, skipped when a snapshot covers it; the channel of its index is told; a snapshot when due is the new state |
| KvServers.KvServer.ExecAppendOpOnKVDB | src/raftCore/KvServer.cpp:86-101 | the value is appended to the old one or set, and the client's id recorded |
| KvServers.KvServer.ExecPutOpOnKVDB | src/raftCore/KvServer.cpp:115-123 | the value is set and the client's id recorded |
| KvServers.KvServer.IsRequestDuplicate | src/raftCore/KvServer.cpp:372-380 | whether the id is not above the client's last |
| KvServers.KvServer.MakeSnapshot | src/raftCore/include/KvServer.h:96-103 | the image stands for the table and ids of the server |
| KvServers.KvServer.LoadFromSnapshotData | src/raftCore/include/KvServer.h:105-111 | the ids are replaced, and keys already there keep their value |
| KvServers.KvServer.GetSnapshotFromRaft | src/raftCore/KvServer.cpp:324-333 | the step of the machine for a snapshot off the channel; writes waiting to be acknowledged stay registered if and only if the snapshot knows them |
| KvServers.KvServer.ReadApplyCommands | src/raftCore/KvServer.cpp:383-399 | the apply loop over commands and snapshots, in any order, is the machine over them, and each snapshot it hands out, due or not at each command, is an image of the state right then |
| KvServers.KvServer.Await | src/raftCore/KvServer.cpp:246-252 | the request's index has a channel, a new one only if there was none |
| KvServers.KvServer.FinishPutAppend | src/raftCore/KvServer.cpp:251-287 | an OK, by notice or after a timeout, means that the write or a later one of the client has taken effect, unless a Get was committed there under the same client and id, or a snapshot loaded since does not know a write it was to acknowledge |
| KvServers.OnlyItsChannel | src/raftCore/KvServer.cpp:355-370 | a command is put behind what the channel of its index holds, if there is one; no channel comes or goes, and no other changes |
| KvServers.MoreRegistered | src/raftCore/KvServer.cpp:306-320 | a command makes the server forget no write that waits to be acknowledged |
| Services.TraceCluster | src/raftCore/KvServer.cpp:383-399 | inside every run of the whole service is a run of Raft that leads to the same cluster, snapshots taken only where an apply thread gives one |
| ServerStates.ProperExactly | src/raftCore/KvServer.cpp:290-333 | for a server in the state of the log, one message is handled as the log says if and only if it fits |
| ServerStates.ServeKeeps | src/raftCore/KvServer.cpp:290-346 | a message handled as the log says leaves the server in the state of the log as far as it has come, and a snapshot taken then is one of the log |
| ServerSteps.RaftKeeps | src/raftCore/raft.cpp:614-665 | every step of Raft in a clean run, snapshots sent and installed and restarts included, leaves every server and every image on a disk or on its way as right as it was |
| ServerSteps.GiveKeeps | src/raftCore/raft.cpp:958-987 | so does a snapshot that Raft takes from the server or turns down |
| Replicas.ProperIffFits | src/raftCore/KvServer.cpp:290-333 | in every clean run all servers handle all messages as the log says if and only if every message fits |
| Replicas.ServersRight | src/raftCore/KvServer.cpp:290-346 | as long as every message fits, every server is in the state of its log as far as it has come, and every image on a disk, in the channel or on its way to Raft is that of the log at its index |
| Replicas.ReplicasAgree | src/raftCore/KvServer.cpp:290-333 | as long as every message fits, two servers that have come equally far have equal tables and ids, at whatever times |
| Replicas.StaleValueStays | src/skipList/include/skipList.h:334-347 | a snapshot further on that does not fit leaves a key with the value held, where the log has another |
| Replicas.WriteForgotten | src/raftCore/include/KvServer.h:105-111 | a snapshot the server has passed that does not fit takes a write off the list of duplicates that the server has carried out |
| HandOver.InTurnAlways | src/raftCore/raft.cpp:738-765 | where no snapshot is overtaken on its way to a server, every command a server carries out is the one behind the last, in every run |
| HandOver.ProperIffLoadsFit | src/raftCore/raft.cpp:650-662 | so in a clean run of that kind the servers handle everything as the log says if and only if every snapshot loaded fits |
| StaleTable.ServersDisagree | src/raftCore/KvServer.cpp:324-333 | a concrete clean run of that kind: two servers have come to index 2, one holds the second value of a key and the other the first |
| Timers.BeforeIsOrder | src/fiber/timer.cpp:7-20 | the comparator is a strict total order where addresses tell timers apart, null first |
| Timers.WhichIsFirst | src/fiber/timer.cpp:7-20 | of two timers the one due earlier comes first, of two due together the one of the smaller address |
| Timers.RolloverExactly | src/fiber/timer.cpp:199-208 | a reading counts as a rollover if and only if it is behind the last one and either that one lies in the first 3600000 ms or the step back is of more than 3600000 ms |
| Timers.DueAreFirst | src/fiber/timer.cpp:173-177 | the due timers are a prefix of the set |
| Timers.TimerManager.constructor | src/fiber/timer.cpp:87 | an empty manager, valid, with no wake-up to lose |
| Timers.TimerManager.Arm | src/fiber/timer.cpp:113-126 | the timer is in the set, and the flag goes up exactly when it came first and the flag was down |
| Timers.TimerManager.AddTimer | src/fiber/timer.cpp:92-97 | a timer due at now + ms is pending, and no wake-up is lost |
| Timers.TimerManager.Cancel | src/fiber/timer.cpp:30-42 | true exactly if it was pending; its callback is gone and it is not pending; like every other method it makes no timer without callback pending, so this one stays gone |
| Timers.TimerManager.Refresh | src/fiber/timer.cpp:44-60 | due at now + ms, never earlier than before while the clock does not go back, so no wake-up is lost without raising the flag |
| Timers.TimerManager.Reset | src/fiber/timer.cpp:64-84 | the new period from now or from the start of the current one, the flag raised exactly if the timer came first and the flag was down, and no wake-up is lost |
| Timers.TimerManager.Move | src/fiber/timer.cpp:78-83 | its second half: out of the set and in again for start + ms, with the flag raised exactly if it came first and the flag was down |
| Timers.TimerManager.GetNextTimer | src/fiber/timer.cpp:128-144 | the time to the earliest timer, 0 if it is due, none if there is none; from here on the flag is down and nothing is due before what was seen |
| Timers.TimerManager.ListExpiredCb | src/fiber/timer.cpp:146-192 | the callbacks of exactly the due timers in order, for any address of the probe; repeating ones re-armed at now + ms, the others without callback, the rest unchanged; the wake-up is kept if and only if the flag is up or every re-armed timer is due no earlier than what was last told, so always when the reading does not count as a rollover; a reading at most 3600000 ms behind a last one of at least that fires only timers that are due |
| Timers.StaleReading | src/fiber/timer.cpp:146-152 | under a clock that never goes back, a reading overtaken by another thread's loses a wake-up: a timer due at 1100, a sleeper told 1101, the flag down |
| Timers.TimerManager.PastDue | src/fiber/timer.cpp:172-177 | from the lower bound of the probe the scan ends at the first timer not due, whatever the probe's address |

## Left out

- Sockets, protobuf, the RPC channel and provider, config parsing: an RPC is a request with at most one reply.
- Persister: the two renames of a save count as one atomic write, and a saved state reads back as it was.
- Boost archives and the string form of an Op: a lossless copy.
- Snapshot payloads inside Raft: there a snapshot is its index and term; what it carries is in `Services`.
- Start-up is one step: Raft's state and the snapshot are read from disk together, before anything else reaches the node.
- Get requests: they read, and set the client's last id, from RPC threads outside the log, so the at-most-once claims are about the apply thread.
- Timers of the Raft node, sleep times and randomised timeouts: their firing is an event that may come at any time; no liveness under real clocks.
- Snapshot threads: a thread started for a peer may send its snapshot any number of times, which allows more runs than the source has.
- leaderUpdateCommitIndex: never called.
- uint64 and int overflow, other than in the rollover check: numbers are unbounded.
- Fibers, hooks, epoll, descriptors, locks: one locked region is one step.
- The race of a timer's unlock with its notification: `OnTimerInsertedAtFront` is the returned flag.
- RaftCluster's event TakeSnapshot takes one at any index up to commitIndex, where a server passes an index it has applied; this allows more runs than the source has. `Services` takes them where the server does.
- displayList, clear and the destructors, logging and the example programs.
- Commitment.OnlyOneAssertionCanFail: does not exclude the assertion on the previous index, because `OvershootCounterexample.AssertionFails` is a run in which it fails; clean runs and runs without snapshots exclude it.
- NodeInvariants.AppendEntriesKeeps: says nothing of a request whose entries are not numbered from prev + 1, because no node sends one (`RaftCluster.StepKeepsWf`).
- PaperRule.AppendOutcome: likewise about requests whose entries are numbered from prev + 1.
- RaftServer.Raft.AppendEntriesImpl: likewise about requests whose entries are numbered from prev + 1.
- RaftServer.Raft.LayOver: likewise about requests whose entries are numbered from prev + 1.
- NodeInvariants.VoteRepliedKeeps: says nothing of a granted vote of a newer term than the candidate's, because none is given (`RaftCluster.StepKeepsWf`).
- KvMachine.AtMostOnce: is about commands one after the other; a snapshot loaded that the server has passed can take a write off the list of duplicates (`Replicas.WriteForgotten`).
- Wait channels and replies to clients are in KvServers only, not in `Services`.
- CatchUp.BoundaryDecides: assumes the matching property for the two logs, because in logs without it an agreement above the boundary may or may not be met by the jumps of the back-off.
- Timers.TimerManager.AddTimer: assumes that no pending timer has the new timer's address.
