/** One node over a whole run, through crashes and restarts: what is always true of it, what never goes
    back, and what follows for its clients and its voters. */
module NodeHistory {
  import opened RaftTypes
  import opened RaftNode
  import opened NodeInvariants
  import opened RaftCluster
  import opened ElectionSafety

  /** At every lock release of every run: the log follows the snapshot without holes, the applied and
      committed indices lie within it, and the disk holds the same log; only term and vote may lag. */
  lemma AlwaysSound(n: nat, events: seq<Event>, k: nat, i: nat)
    requires k <= |events| && i < n
    ensures var m := At(n, events, k).nodes[i];
      && m.id == i && m.peers == n
      && Contiguous(m.log, m.snapIndex)
      && m.snapIndex <= m.lastApplied <= m.Last() && m.commitIndex <= m.Last()
      && m.disk.log == m.log && m.disk.snapIndex == m.snapIndex && m.disk.snapTerm == m.snapTerm
      && ((m.disk.term == m.term && m.disk.votedFor == m.votedFor)
          || (m.disk.term < m.term && m.votedFor == NOBODY && m.status == Follower))
  {
    hide Exec;
    assert WfNodes(At(n, events, k).nodes) && Sound(At(n, events, k).nodes[i]);
  }

  /** Nothing a node has once is taken back later, not even by a crash. */
  ghost predicate NotBack(m: Node, m': Node)
  {
    && m.Last() <= m'.Last() && m.snapIndex <= m'.snapIndex && m.disk.term <= m'.disk.term
    && (m.disk.term == m'.disk.term && m.disk.votedFor != NOBODY ==> m'.disk.votedFor == m.disk.votedFor)
  }

  lemma NotBackTrans(a: Node, b: Node, c: Node)
    requires NotBack(a, b) && NotBack(b, c)
    ensures NotBack(a, c)
  {
  }

  lemma StepNotBack(c: Cluster, e: Event, i: nat)
    requires Wf(c) && i < |c.nodes|
    ensures NotBack(c.nodes[i], Step(c, e).nodes[i])
  {
    hide Step, Wf, NoCoups, AllTrim, AllSame;
    StepMoves(c, e);
    assert Keeps(c.nodes[i], Step(c, e).nodes[i]);
  }

  lemma {:induction false} NeverBack(n: nat, events: seq<Event>, j: nat, k: nat, i: nat)
    requires j <= k <= |events| && i < n
    ensures NotBack(At(n, events, j).nodes[i], At(n, events, k).nodes[i])
    decreases k
  {
    hide At, Step, Wf;
    if j < k {
      NeverBack(n, events, j, k - 1, i);
      StepNotBack(At(n, events, k - 1), events[k - 1], i);
      AtNext(n, events, k - 1);
      NotBackTrans(At(n, events, j).nodes[i], At(n, events, k - 1).nodes[i], At(n, events, k).nodes[i]);
    }
  }

  /** The index a client is told when the node takes its command; None when the node is no leader. */
  function Told(c: Cluster, e: Event): Option<nat>
  {
    if e.ClientStart? && Alive(c, e.i) && c.nodes[e.i].status == Leader then Some(c.nodes[e.i].Last() + 1) else None
  }

  /** No two commands a node ever takes are told the same index, so no two requests of a server share a
      wait channel, and later commands are told higher ones. */
  lemma FreshIndices(n: nat, events: seq<Event>, j: nat, k: nat)
    requires j < k < |events|
    requires Told(At(n, events, j), events[j]).Some? && Told(At(n, events, k), events[k]).Some?
    requires events[j].i == events[k].i
    ensures Told(At(n, events, j), events[j]).value < Told(At(n, events, k), events[k]).value
  {
    hide At, Wf;
    TakenGrows(At(n, events, j), events[j]);
    AtNext(n, events, j);
    NeverBack(n, events, j + 1, k, events[j].i);
  }

  lemma TakenGrows(c: Cluster, e: Event)
    requires Wf(c) && Told(c, e).Some?
    ensures Step(c, e).nodes[e.i].Last() == Told(c, e).value
  {
    hide Wf;
  }

  // ---------- one vote per term ----------

  /** The answers given so far stay as they are. */
  ghost predicate RepliesGrow(el: Elections, el': Elections)
  {
    forall k | k in el.replies :: k in el'.replies && el'.replies[k] == el.replies[k]
  }

  lemma StepRepliesGrow(c: Cluster, e: Event)
    requires Wf(c)
    ensures RepliesGrow(c.el, Step(c, e).el)
  {
    hide Wf, ElectStep, VoteAnsweredStep, DeliverVoteStep;
    match e
    case Elect(i) => if Alive(c, i) { ElectReplies(c, i); }
    case DeliverVote(k) => if CanDeliverVote(c, k) { DeliverVoteReplies(c, k); }
    case VoteAnswered(k) => if CanHandleVote(c, k) { VoteAnsweredReplies(c, k); }
    case _ =>
      hide Step;
      QuietShape(c, e);
  }

  lemma ElectReplies(c: Cluster, i: nat)
    requires Wf(c) && Alive(c, i)
    ensures ElectStep(c, i).el.replies == c.el.replies
  {
    hide Wf;
  }

  lemma DeliverVoteReplies(c: Cluster, k: VoteKey)
    requires Wf(c) && CanDeliverVote(c, k)
    ensures RepliesGrow(c.el, DeliverVoteStep(c, k).el)
  {
    hide Wf, RequestVote;
  }

  lemma VoteAnsweredReplies(c: Cluster, k: VoteKey)
    requires Wf(c) && CanHandleVote(c, k)
    ensures VoteAnsweredStep(c, k).el.replies == c.el.replies
  {
    hide Wf, VoteReplied;
  }

  lemma {:induction false} RepliesStay(n: nat, events: seq<Event>, j: nat, k: nat)
    requires j <= k <= |events|
    ensures RepliesGrow(At(n, events, j).el, At(n, events, k).el)
    decreases k
  {
    hide At, Step, Wf;
    if j < k {
      RepliesStay(n, events, j, k - 1);
      StepRepliesGrow(At(n, events, k - 1), events[k - 1]);
      AtNext(n, events, k - 1);
    }
  }

  /** However far apart, and whatever crashes lie between: a node grants one candidate its vote in a term. */
  lemma OneVotePerTerm(n: nat, events: seq<Event>, j: nat, k: nat, a: VoteKey, b: VoteKey)
    requires j <= k <= |events|
    requires a in At(n, events, j).el.replies && At(n, events, j).el.replies[a].granted
    requires b in At(n, events, k).el.replies && At(n, events, k).el.replies[b].granted
    requires a.voter == b.voter && a.ballot.term == b.ballot.term
    ensures a.ballot.candidate == b.ballot.candidate
  {
    hide At, Wf, VotesKept, Tallies, Thrones, Reigns;
    AtElected(n, events, k);
    RepliesStay(n, events, j, k);
    assert Backs(At(n, events, k).el, a.voter, a.ballot) && Backs(At(n, events, k).el, b.voter, b.ballot);
  }

  /** A candidate that stood in a term grants no other candidate its vote in it, before or after. */
  lemma CandidatesVoteForThemselves(n: nat, events: seq<Event>, k: nat, a: VoteKey, b: Ballot)
    requires k <= |events|
    requires a in At(n, events, k).el.replies && At(n, events, k).el.replies[a].granted
    requires b in At(n, events, k).el.ballots && b.candidate == a.voter && b.term == a.ballot.term
    ensures a.ballot.candidate == a.voter
  {
    hide At, Wf, VotesKept, Tallies, Thrones, Reigns;
    AtElected(n, events, k);
    assert Backs(At(n, events, k).el, b.candidate, b) && Backs(At(n, events, k).el, a.voter, a.ballot);
  }
}
