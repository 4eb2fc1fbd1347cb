/** What clean runs guarantee, snapshots, crashes and lost, late or reordered messages included: Log Matching
    (section 5.3 of the Raft paper), Leader Completeness and State Machine Safety (section 5.4). They are
    stated for whole logs, of which a node keeps the end, and for what the nodes themselves hold. */
module Agreement {
  import opened RaftTypes
  import opened RaftNode
  import opened NodeInvariants
  import opened RaftCluster
  import opened ElectionSafety
  import opened EntryIdentity
  import opened Commitment
  import opened CleanRuns
  import opened LogAlgebra
  import opened MatchingSteps
  import opened CompletenessSteps
  import opened SafetySteps
  import opened FullLogs
  import opened Shadows
  import opened ShadowRuns
  import opened CleanShadows

  // ---------- whole logs ----------

  /** The log of node i after k events of the run, with the entries in front that snapshots have dropped. */
  ghost function Whole(n: nat, events: seq<Event>, k: nat, i: nat): (log: Log)
    requires k <= |events| && i < n
    ensures IsFull(At(n, events, k).nodes[i], log)
  {
    assert Mirror(At(n, events, k).nodes[i], ShadowAt(n, events, k).full.nodes[i]) by {
      NodeMirror(At(n, events, k), ShadowAt(n, events, k), i);
    }
    ShadowAt(n, events, k).full.nodes[i].log
  }

  /** As far as both nodes still show them, terms and entries up to index x are the same. */
  predicate SameUpTo(f: Node, g: Node, x: int)
  {
    && (forall i | f.snapIndex <= i <= f.Last() && g.snapIndex <= i <= g.Last() && i <= x :: f.TermAt(i) == g.TermAt(i))
    && (forall i | f.snapIndex < i <= f.Last() && g.snapIndex < i <= g.Last() && i <= x ::
          EntryAt(f, i) == EntryAt(g, i))
  }

  lemma SameWholes(f: Node, g: Node, whole: Log, whole': Log, x: nat)
    requires f.Valid() && g.Valid() && IsFull(f, whole) && IsFull(g, whole') && x <= |whole| && x <= |whole'|
    requires whole[..x] == whole'[..x]
    ensures SameUpTo(f, g, x)
  {
    WholeView(f, whole);
    WholeView(g, whole');
    forall i | f.snapIndex <= i <= x && g.snapIndex <= i ensures f.TermAt(i) == g.TermAt(i) {
      assert i > 0 ==> whole[..x][i - 1] == whole'[..x][i - 1];
    }
    forall i | f.snapIndex < i <= x && g.snapIndex < i ensures EntryAt(f, i) == EntryAt(g, i) {
      assert whole[..x][i - 1] == whole'[..x][i - 1];
    }
  }

  lemma WholeView(n: Node, whole: Log)
    requires n.Valid() && IsFull(n, whole)
    ensures forall i | n.snapIndex <= i <= n.Last() :: n.TermAt(i) == TermOf(whole, i)
    ensures forall i | n.snapIndex < i <= n.Last() :: EntryAt(n, i) == whole[i - 1]
  {
    forall i | n.snapIndex < i <= n.Last() ensures EntryAt(n, i) == whole[i - 1] {
      assert whole[n.snapIndex..][i - n.snapIndex - 1] == whole[i - 1];
    }
  }

  // ---------- Log Matching ----------

  lemma AnchoredAtEnd(n: nat, events: seq<Event>, j: nat, last: nat, a: nat)
    requires j <= last <= |events| && CleanRun(n, events) && a < n
    ensures Anchored(Whole(n, events, j, a), ShadowAt(n, events, last).full.past.termLogs)
  {
    hide At, ShadowAt, CleanRun, Follows, Extends, Remembering, Applying, Waiting, SnapsBacked, PayloadsBacked;
    AtSettled(n, events, j);
    CleanShadows.RunOnward(n, events, j, last);
    Sizes(At(n, events, j), ShadowAt(n, events, j));
    LogAnchored(ShadowAt(n, events, j).full, a);
    AnchoredGrows(Whole(n, events, j, a), ShadowAt(n, events, j).full.past.termLogs,
                  ShadowAt(n, events, last).full.past.termLogs);
  }

  /** Two nodes, at any two times, that show one term at an index have the same log up to there. */
  lemma LogMatching(n: nat, events: seq<Event>, j: nat, k: nat, a: nat, b: nat, x: nat)
    requires j <= |events| && k <= |events| && CleanRun(n, events) && a < n && b < n
    requires var f, g := At(n, events, j).nodes[a], At(n, events, k).nodes[b];
      && f.snapIndex <= x <= f.Last() && g.snapIndex <= x <= g.Last() && f.TermAt(x) == g.TermAt(x)
    ensures Whole(n, events, j, a)[..x] == Whole(n, events, k, b)[..x]
    ensures SameUpTo(At(n, events, j).nodes[a], At(n, events, k).nodes[b], x)
  {
    hide At, CleanRun, Whole, SameUpTo;
    var last := if j < k then k else j;
    var f, g := At(n, events, j).nodes[a], At(n, events, k).nodes[b];
    var whole, whole' := Whole(n, events, j, a), Whole(n, events, k, b);
    ValidNode(At(n, events, j), a);
    ValidNode(At(n, events, k), b);
    WholeView(f, whole);
    WholeView(g, whole');
    AnchoredAtEnd(n, events, j, last, a);
    AnchoredAtEnd(n, events, k, last, b);
    SamePrefix(whole, whole', x, ShadowAt(n, events, last).full.past.termLogs);
    SameWholes(f, g, whole, whole', x);
  }

  lemma ValidNode(c: Cluster, i: nat)
    requires Wf(c) && i < |c.nodes|
    ensures c.nodes[i].Valid()
  {
  }

  /** The same for a log and a request, delivered or not: if they share an entry, they agree on all the
      request says below it, the previous entry's term included. */
  lemma RequestMatching(n: nat, events: seq<Event>, k: nat, a: nat, r: nat, p: nat, x: nat)
    requires k <= |events| && CleanRun(n, events) && a < n
    requires var c := At(n, events, k);
      && r < |c.re.beats| && p in c.re.beats[r].sent
      && var args, whole := c.re.beats[r].sent[p], Whole(n, events, k, a);
      && args.prevIndex < x <= args.End() && x <= |whole|
      && whole[x - 1].logTerm == args.entries[x - args.prevIndex - 1].logTerm
    ensures var args, whole := At(n, events, k).re.beats[r].sent[p], Whole(n, events, k, a);
      && whole[args.prevIndex..x] == args.entries[..x - args.prevIndex]
      && TermOf(whole, args.prevIndex) == args.prevTerm
  {
    hide At, CleanRun, Extends, Wf, Matching, Anchored, SliceOf, ShadowAt, Follows, Settled, CallsMirror;
    var c, s := At(n, events, k), ShadowAt(n, events, k);
    AtSettled(n, events, k);
    MatchingOf(c, s);
    SentMirror(c, s, AppendKey(r, p));
    NodeMirror(c, s, a);
    RequestFacts(s.full, a, r, p);
    var b, args := s.full.re.beats[r], c.re.beats[r].sent[p];
    SharedSlice(Whole(n, events, k, a), s.full.past.termLogs[b.term], args.prevIndex, b.last, args.prevTerm,
                args.entries, x, s.full.past.termLogs);
  }

  lemma RequestFacts(c: Cluster, a: nat, r: nat, p: nat)
    requires Wf(c) && Matching(c) && a < |c.nodes| && r < |c.re.beats| && p in c.re.beats[r].sent
    ensures var b := c.re.beats[r]; var args := b.sent[p]; var tl := c.past.termLogs;
      && args.End() == b.last && b.term in tl && Anchored(tl[b.term], tl) && Anchored(c.nodes[a].log, tl)
      && SliceOf(tl[b.term], args.prevIndex, b.last, args.prevTerm, args.entries)
  {
    hide WfNodes, WfVotes, WfInstalls, Contiguous, Stood, CandidatesAnchored, Anchored;
    assert WfBeat(c.nodes, c.re.beats[r]) && WfRequest(c.re.beats[r], c.re.beats[r].sent[p]);
    assert BeatSliced(c.re.beats[r], c.past.termLogs);
  }

  lemma SharedSlice(log: Log, whole: Log, at: nat, end: nat, prevTerm: nat, entries: Log, x: nat,
                    termLogs: map<nat, Log>)
    requires Anchored(log, termLogs) && Anchored(whole, termLogs) && SliceOf(whole, at, end, prevTerm, entries)
    requires at < x <= end && x <= |log| && log[x - 1].logTerm == entries[x - at - 1].logTerm
    ensures log[at..x] == entries[..x - at] && TermOf(log, at) == prevTerm
  {
    SamePrefix(log, whole, x, termLogs);
    assert log[at..x] == log[..x][at..] && entries[..x - at] == whole[..x][at..];
    assert TermOf(log, at) == TermOf(log[..x], at) && TermOf(whole, at) == TermOf(whole[..x], at);
  }

  // ---------- Leader Completeness ----------

  /** The commit behind a reply that moves a commit index, on the leader's whole log. */
  lemma Committing(n: nat, events: seq<Event>, j: nat, key: AppendKey) returns (m: Commit)
    requires j < |events| && CleanRun(n, events)
    requires events[j] == AppendAnswered(key) && CanHandleAppend(At(n, events, j), key)
    requires var a := At(n, events, j).re.beats[key.round].leader;
      At(n, events, j + 1).nodes[a].commitIndex > At(n, events, j).nodes[a].commitIndex
    ensures var a, d := At(n, events, j).re.beats[key.round].leader, ShadowAt(n, events, j + 1).full;
      && m in d.re.commits && m.term == At(n, events, j).nodes[a].term
      && m.index == At(n, events, j + 1).nodes[a].commitIndex
      && m.term in d.past.termLogs && d.past.termLogs[m.term] == Whole(n, events, j + 1, a)
        && m.index <= |d.past.termLogs[m.term]|
  {
    hide At, CleanRun, ShadowAt, Follows, Settled, Sane, Wf, Matching, Replicating, Mirror, Step;
    var c, s, a := At(n, events, j), ShadowAt(n, events, j), At(n, events, j).re.beats[key.round].leader;
    var c', s' := At(n, events, j + 1), ShadowAt(n, events, j + 1);
    AtNext(n, events, j);
    ShadowNext(n, events, j);
    SharedStep(c, s, AppendAnswered(key));
    Possible(c, s);
    AtSane(n, events, j);
    AtSettled(n, events, j + 1);
    MatchingOf(c', s');
    TracedOf(s);
    KeyMirror(c, s, key);
    NodeMirror(c, s, a);
    NodeMirror(c', s', a);
    SameFields(c.nodes[a], s.full.nodes[a]);
    SameFields(c'.nodes[a], s'.full.nodes[a]);
    AnswerStep(s.full, key);
    m := MovedCommit(s.full, key);
    CommitterOnTop(s.full, key);
  }

  lemma KeyMirror(c: Cluster, s: Shadow, k: AppendKey)
    requires Wf(c) && Follows(c, s) && CanHandleAppend(c, k)
    ensures k.round < |s.full.re.beats| && s.full.re.beats[k.round].leader == c.re.beats[k.round].leader
  {
    AnsweredHere(c, k);
    SentMirror(c, s, k);
  }

  lemma AnswerStep(c: Cluster, k: AppendKey)
    requires Wf(c) && CanHandleAppend(c, k)
    ensures Step(c, AppendAnswered(k)) == AppendAnsweredStep(c, k)
  {
    hide Wf;
  }

  /** What was committed by time j is in the whole log of every leader of a later term. */
  lemma Carried(n: nat, events: seq<Event>, j: nat, m: Commit, k: nat, b: nat)
    requires j <= |events| && k <= |events| && CleanRun(n, events) && b < n
    requires m in ShadowAt(n, events, j).full.re.commits && m.term in ShadowAt(n, events, j).full.past.termLogs
    requires m.index <= |ShadowAt(n, events, j).full.past.termLogs[m.term]|
    requires At(n, events, k).nodes[b].status == Leader && At(n, events, k).nodes[b].term > m.term
    ensures ShadowAt(n, events, j).full.past.termLogs[m.term][..m.index] <= Whole(n, events, k, b)
  {
    hide At, CleanRun, ShadowAt, Follows, Settled, Sane, Wf, Matching, Replicating, Mirror, Extends, Elected;
    hide Remembering;
    var last := if j < k then k else j;
    var c, d, e, end := At(n, events, k), ShadowAt(n, events, j).full, ShadowAt(n, events, k).full,
        ShadowAt(n, events, last).full;
    CleanShadows.RunOnward(n, events, j, last);
    CleanShadows.RunOnward(n, events, k, last);
    AtSane(n, events, last);
    AtSettled(n, events, last);
    AtSettled(n, events, k);
    MatchingOf(c, ShadowAt(n, events, k));
    MatchingOf(At(n, events, last), ShadowAt(n, events, last));
    TracedOf(ShadowAt(n, events, last));
    NodeMirror(c, ShadowAt(n, events, k), b);
    var t := c.nodes[b].term;
    OnTop(e, b);
    CommittedOf(end);
    KeysAgree(end);
    Completeness(end, m, t);
    TopExtends(d.past.termLogs, end.past.termLogs, m.term);
    PrefixTrans(end.past.termLogs[m.term][..m.index], e.past.electLogs[t], e.nodes[b].log);
  }

  /** A reply that moves the commit index of leader a to N in some term: at any moment of the run, before or
      after, the log of every leader b of a later term begins with a's first N entries. */
  lemma LeaderCompleteness(n: nat, events: seq<Event>, j: nat, key: AppendKey, k: nat, b: nat)
    requires j < |events| && k <= |events| && CleanRun(n, events) && b < n
    requires events[j] == AppendAnswered(key) && CanHandleAppend(At(n, events, j), key)
    requires var c, c' := At(n, events, j), At(n, events, j + 1); var a := c.re.beats[key.round].leader;
      && c'.nodes[a].commitIndex > c.nodes[a].commitIndex
      && At(n, events, k).nodes[b].status == Leader && At(n, events, k).nodes[b].term > c.nodes[a].term
    ensures var a := At(n, events, j).re.beats[key.round].leader;
      var commit := At(n, events, j + 1).nodes[a].commitIndex;
      && commit <= |Whole(n, events, j + 1, a)|
      && Whole(n, events, j + 1, a)[..commit] <= Whole(n, events, k, b)
      && SameUpTo(At(n, events, j + 1).nodes[a], At(n, events, k).nodes[b], commit)
  {
    hide At, CleanRun, Whole, SameUpTo, IsFull, WfNodes, WfVotes, WfInstalls, ShadowAt, Follows;
    var a := At(n, events, j).re.beats[key.round].leader;
    var commit := At(n, events, j + 1).nodes[a].commitIndex;
    var m := Committing(n, events, j, key);
    Carried(n, events, j + 1, m, k, b);
    Shown(n, events, j + 1, k, a, b, commit);
  }

  lemma Shown(n: nat, events: seq<Event>, j: nat, k: nat, a: nat, b: nat, x: nat)
    requires j <= |events| && k <= |events| && a < n && b < n && x <= |Whole(n, events, j, a)|
    requires Whole(n, events, j, a)[..x] <= Whole(n, events, k, b)
    ensures SameUpTo(At(n, events, j).nodes[a], At(n, events, k).nodes[b], x)
  {
    hide At, Whole, SameUpTo;
    ValidNode(At(n, events, j), a);
    ValidNode(At(n, events, k), b);
    assert Whole(n, events, k, b)[..x] == Whole(n, events, j, a)[..x];
    SameWholes(At(n, events, j).nodes[a], At(n, events, k).nodes[b], Whole(n, events, j, a), Whole(n, events, k, b), x);
  }

  // ---------- State Machine Safety ----------

  /** A node is sure of what it knows to be committed and of what its snapshot stands for. */
  function Sure(n: Node): nat { Max(n.commitIndex, n.snapIndex) }

  lemma SureBacked(n: nat, events: seq<Event>, j: nat, last: nat, a: nat)
    requires j <= last <= |events| && CleanRun(n, events) && a < n
    ensures var node, d := At(n, events, j).nodes[a], ShadowAt(n, events, last).full;
      && Sure(node) <= |Whole(n, events, j, a)|
      && Backed(Whole(n, events, j, a), Sure(node), node.term, d.re.commits, d.past.termLogs)
  {
    hide At, CleanRun, ShadowAt, Follows, Backed, Onward, PayloadsBacked, Waiting, Matching, Remembering, Mirror;
    hide BeatsBacked, AppliedBacked;
    var c, s := At(n, events, j), ShadowAt(n, events, j);
    var node, whole, d := c.nodes[a], Whole(n, events, j, a), s.full;
    AtSettled(n, events, j);
    CleanShadows.RunOnward(n, events, j, last);
    NodeMirror(c, s, a);
    SameFields(node, d.nodes[a]);
    SureLength(node, whole);
    NodePart(d, a);
    assert Backed(whole, node.snapIndex, node.disk.term, d.re.commits, d.past.termLogs);
    BackedPart(whole, node.snapIndex, node.disk.term, d.re.commits, d.past.termLogs, whole, node.snapIndex, node.term);
    BackedLater(whole, Sure(node), node.term, d, node.term, ShadowAt(n, events, last).full);
  }

  lemma SureLength(n: Node, whole: Log)
    requires Sound(n) && IsFull(n, whole)
    ensures Sure(n) <= |whole| && n.snapIndex <= |whole| && n.disk.term <= n.term
  {
  }

  lemma CompleteAt(n: nat, events: seq<Event>, k: nat)
    requires k <= |events| && CleanRun(n, events)
    ensures var d := ShadowAt(n, events, k).full;
      Complete(d.re.commits, d.past.electLogs, d.past.termLogs) && Shaped(d.past.electLogs, d.past.termLogs)
  {
    hide Elected, Traced, Matching, Remembering, Replicating, At, CleanRun, ShadowAt, Follows, PayloadsKnown, Applying;
    hide Waiting, SnapsBacked, PayloadsBacked;
    AtSane(n, events, k);
    AtSettled(n, events, k);
    CommitsComplete(ShadowAt(n, events, k).full);
  }

  /** At any two moments, two nodes have the same log up to any index both are sure of. */
  lemma CommittedAgree(n: nat, events: seq<Event>, j: nat, k: nat, a: nat, b: nat, x: nat)
    requires j <= |events| && k <= |events| && CleanRun(n, events) && a < n && b < n
    requires x <= Sure(At(n, events, j).nodes[a]) && x <= Sure(At(n, events, k).nodes[b])
    ensures x <= |Whole(n, events, j, a)| && x <= |Whole(n, events, k, b)|
    ensures Whole(n, events, j, a)[..x] == Whole(n, events, k, b)[..x]
    ensures SameUpTo(At(n, events, j).nodes[a], At(n, events, k).nodes[b], x)
  {
    hide At, CleanRun, ShadowAt, Whole, Backed, Complete, Shaped, SameUpTo, Follows, IsFull, Wf;
    var last := if j < k then k else j;
    SureBacked(n, events, j, last, a);
    SureBacked(n, events, k, last, b);
    CompleteAt(n, events, last);
    var f, g, d := At(n, events, j).nodes[a], At(n, events, k).nodes[b], ShadowAt(n, events, last).full;
    BackedAgree(Whole(n, events, j, a), Sure(f), f.term, Whole(n, events, k, b), Sure(g), g.term,
                d.re.commits, d.past.electLogs, d.past.termLogs);
    assert Whole(n, events, j, a)[..x] == Whole(n, events, k, b)[..x];
    Shown(n, events, j, k, a, b, x);
  }

  /** State Machine Safety: what node a is given to apply at time j and what node b is given at time k
      never differ at one index. */
  lemma StateMachineSafety(n: nat, events: seq<Event>, j: nat, k: nat, a: nat, b: nat, x: ApplyMsg, y: ApplyMsg)
    requires j <= |events| && k <= |events| && CleanRun(n, events) && a < n && b < n
    requires At(n, events, j).nodes[a].Valid() && At(n, events, k).nodes[b].Valid()
    requires x in ApplyLogs(At(n, events, j).nodes[a]).1 && y in ApplyLogs(At(n, events, k).nodes[b]).1
    requires x.index == y.index
    ensures x.command == y.command
  {
    hide At, CleanRun, Whole, Wf;
    var f, g := At(n, events, j).nodes[a], At(n, events, k).nodes[b];
    GivenEntry(f, x);
    GivenEntry(g, y);
    CommittedAgree(n, events, j, k, a, b, x.index);
  }

  lemma GivenEntry(n: Node, x: ApplyMsg)
    requires n.Valid() && x in ApplyLogs(n).1
    ensures n.snapIndex < x.index <= n.commitIndex && x.command == EntryAt(n, x.index).command
  {
  }

  /** Whatever was delivered, by whom and when, is the command of the whole log of every node that is sure
      of its index. */
  lemma DeliveredCommand(n: nat, events: seq<Event>, j: nat, k: nat, b: nat, x: ApplyMsg)
    requires j <= |events| && k <= |events| && CleanRun(n, events) && b < n
    requires x in At(n, events, j).past.applied && x.index <= Sure(At(n, events, k).nodes[b])
    ensures 1 <= x.index <= |Whole(n, events, k, b)| && Whole(n, events, k, b)[x.index - 1].command == x.command
  {
    hide At, CleanRun, ShadowAt, Whole, Backed, Complete, Shaped, Follows, IsFull, Wf, Onward, AppliedBacked;
    var last := if j < k then k else j;
    AppliedLater(n, events, j, last);
    SureBacked(n, events, k, last, b);
    CompleteAt(n, events, last);
    var g, d := At(n, events, k).nodes[b], ShadowAt(n, events, last).full;
    AppliedAgrees(At(n, events, j).past.applied, x, Whole(n, events, k, b), Sure(g), g.term, d.re.commits,
                  d.past.electLogs, d.past.termLogs);
  }

  lemma AppliedLater(n: nat, events: seq<Event>, j: nat, last: nat)
    requires j <= last <= |events| && CleanRun(n, events)
    ensures var d := ShadowAt(n, events, last).full;
      AppliedBacked(At(n, events, j).past.applied, d.re.commits, d.past.termLogs)
  {
    hide At, CleanRun, ShadowAt, Wf, AppliedBacked, Matching, Remembering, Waiting, SnapsBacked, PayloadsBacked;
    hide Extends;
    hide NodesMirror, CallsMirror, PayloadsFit, NodesBacked, BeatsBacked;
    AtSettled(n, events, j);
    CleanShadows.RunOnward(n, events, j, last);
    var d, d' := ShadowAt(n, events, j).full, ShadowAt(n, events, last).full;
    AppliedMove(d.past.applied, d.re.commits, d'.re.commits, d.past.termLogs, d'.past.termLogs);
  }

  lemma AppliedAgrees(applied: set<ApplyMsg>, x: ApplyMsg, log: Log, k: nat, t: nat, commits: set<Commit>,
                      electLogs: map<nat, Log>, termLogs: map<nat, Log>)
    requires AppliedBacked(applied, commits, termLogs) && x in applied && x.index <= k <= |log|
    requires Backed(log, k, t, commits, termLogs) && Complete(commits, electLogs, termLogs)
      && Shaped(electLogs, termLogs)
    ensures 1 <= x.index && log[x.index - 1].command == x.command
  {
    hide Complete, Shaped;
    var m :| m in commits && AppliedBy(m, x, termLogs);
    var o :| o in commits && BackedBy(o, log, k, t, termLogs);
    CommitsAgree(m, o, commits, electLogs, termLogs);
    assert log[..k][x.index - 1] == termLogs[o.term][..k][x.index - 1];
  }

  /** Two messages for one index, delivered by any nodes at any times, are the same message. */
  lemma DeliveriesAgree(n: nat, events: seq<Event>, j: nat, k: nat, x: ApplyMsg, y: ApplyMsg)
    requires j <= |events| && k <= |events| && CleanRun(n, events)
    requires x in At(n, events, j).past.applied && y in At(n, events, k).past.applied && x.index == y.index
    ensures x == y
  {
    hide At, CleanRun, ShadowAt, Complete, Shaped, Follows, Wf;
    var last := if j < k then k else j;
    AppliedLater(n, events, j, last);
    AppliedLater(n, events, k, last);
    CompleteAt(n, events, last);
    var d := ShadowAt(n, events, last).full;
    var m :| m in d.re.commits && AppliedBy(m, x, d.past.termLogs);
    var o :| o in d.re.commits && AppliedBy(o, y, d.past.termLogs);
    CommitsAgree(m, o, d.re.commits, d.past.electLogs, d.past.termLogs);
  }

  /** A snapshot on its way stands for what every node that is sure of it has. */
  lemma SnapshotsAgree(n: nat, events: seq<Event>, j: nat, k: nat, call: nat, b: nat)
    requires j <= |events| && k <= |events| && CleanRun(n, events) && b < n
    requires call < |At(n, events, j).sn.installs|
    requires At(n, events, j).sn.installs[call].args.snapIndex <= Sure(At(n, events, k).nodes[b])
    ensures var args, whole := At(n, events, j).sn.installs[call].args, Whole(n, events, k, b);
      && args.snapIndex <= |whole| && TermOf(whole, args.snapIndex) == args.snapTerm
      && call < |ShadowAt(n, events, j).payloads| && ShadowAt(n, events, j).payloads[call] == whole[..args.snapIndex]
  {
    hide At, CleanRun, ShadowAt, Whole, Backed, Complete, Shaped, IsFull, Wf, Onward, Settled, Contiguous, NodesMirror;
    hide CallsMirror;
    var last := if j < k then k else j;
    var c, s, d := At(n, events, j), ShadowAt(n, events, j), ShadowAt(n, events, last).full;
    var g, whole := At(n, events, k).nodes[b], Whole(n, events, k, b);
    AtSettled(n, events, j);
    PayloadFits(c, s, call);
    PayloadFacts(c, s, call);
    CleanShadows.RunOnward(n, events, j, last);
    SureBacked(n, events, k, last, b);
    CompleteAt(n, events, last);
    var payload, t := s.payloads[call], c.sn.installs[call].args.term;
    BackedLater(payload, |payload|, t, s.full, t, d);
    BackedAgree(payload, |payload|, t, whole, Sure(g), g.term, d.re.commits, d.past.electLogs, d.past.termLogs);
    assert payload == whole[..|payload|];
  }
}
