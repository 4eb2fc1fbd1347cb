/** Every step of Raft in a clean run, snapshots taken, sent and installed and crashes included, leaves every
    server as right as it was, and every image on a disk or on its way. */
module ServerSteps {
  import opened RaftTypes
  import opened RaftNode
  import opened NodeInvariants
  import opened RaftCluster
  import opened CleanRuns
  import opened LogAlgebra
  import opened FullLogs
  import opened Shadows
  import opened KvMachine
  import opened Services
  import opened ServerStates
  import opened Agreement
  import CleanShadows
  import D = Deliveries

  // ---------- what a Raft step leaves in place ----------

  /** The log up to x, before and after a step. */
  lemma WholeStays(n: nat, events: seq<Event>, e: Event, i: nat, x: nat)
    requires CleanRun(n, events + [e]) && i < n
    requires x <= Sure(Exec(Init(n), events).nodes[i]) && x <= Sure(Exec(Init(n), events + [e]).nodes[i])
    ensures var d, d' := ShadowOf(n, events).full, ShadowOf(n, events + [e]).full;
      && |d.nodes| == |d'.nodes| == n && x <= |d.nodes[i].log| && x <= |d'.nodes[i].log|
      && d'.nodes[i].log[..x] == d.nodes[i].log[..x]
  {
    hide CleanRun, Exec, Init, ShadowOf, Wf, SameUpTo, IsFull, CallsMirror, PayloadsFit, Mirror;
    var k, all := |events|, events + [e];
    assert all[..k] == events && all[..k + 1] == all;
    CommittedAgree(n, all, k, k + 1, i, i, x);
  }

  lemma StepOf(n: nat, events: seq<Event>, e: Event)
    ensures Exec(Init(n), events + [e]) == Step(Exec(Init(n), events), e)
    ensures ShadowOf(n, events + [e]) == ShadowStep(Exec(Init(n), events), ShadowOf(n, events), e)
  {
    assert (events + [e])[..|events|] == events;
  }

  lemma NodeMoves(c: Cluster, e: Event, i: nat)
    requires Wf(c) && i < |c.nodes|
    ensures e != Crash(i) ==> c.nodes[i].lastApplied <= Step(c, e).nodes[i].lastApplied
    ensures c.nodes[i].snapIndex <= Step(c, e).nodes[i].snapIndex
    ensures e == Crash(i) ==> Step(c, e).nodes[i] == Restart(c.nodes[i]) && Sound(c.nodes[i])
  {
    hide WfVotes, WfBeats, WfInstalls, Restart, ApplyLogs, D.Delivering;
    if e.Apply? {
      ApplyNode(c, e.i);
    } else if e.Crash? {
      IdleStep(c, e);
      if e.i < |c.nodes| {
        CrashNode(c, e.i);
      }
    } else {
      hide Step, WfNodes;
      D.StepPaced(c, e);
      assert D.Paced(c.nodes[i], Step(c, e).nodes[i]);
    }
  }

  lemma ApplyNode(c: Cluster, i: nat)
    requires Wf(c)
    ensures Alive(c, i) ==> c.nodes[i].Valid() && Step(c, Apply(i)).nodes == c.nodes[i := ApplyLogs(c.nodes[i]).0]
    ensures Alive(c, i) ==> c.nodes[i].lastApplied <= ApplyLogs(c.nodes[i]).0.lastApplied
    ensures Alive(c, i) ==> c.nodes[i].snapIndex == ApplyLogs(c.nodes[i]).0.snapIndex
    ensures !Alive(c, i) ==> Step(c, Apply(i)) == c
  {
    hide WfVotes, WfBeats, WfInstalls;
  }

  lemma CrashNode(c: Cluster, i: nat)
    requires Wf(c) && i < |c.nodes|
    ensures Step(c, Crash(i)).nodes == c.nodes[i := Restart(c.nodes[i])]
    ensures Restart(c.nodes[i]).snapIndex == c.nodes[i].snapIndex == Restart(c.nodes[i]).lastApplied
  {
    hide WfVotes, WfBeats, WfInstalls;
    assert Sound(c.nodes[i]);
  }

  lemma SureOf(n: nat, events: seq<Event>, i: nat)
    requires i < n
    ensures var node := Exec(Init(n), events).nodes[i];
      node.snapIndex <= node.lastApplied <= Sure(node)
  {
    hide Wf, Exec, Init;
    assert events[..|events|] == events;
    D.DeliveringAt(n, events, |events|, i);
  }

  /** The log a server has worked on stays as it was. */
  lemma AppliedStays(n: nat, events: seq<Event>, e: Event, i: nat)
    requires CleanRun(n, events + [e]) && i < n && e != Crash(i)
    ensures var c, d, d' := Exec(Init(n), events), ShadowOf(n, events).full, ShadowOf(n, events + [e]).full;
      var x := c.nodes[i].lastApplied;
      && |d.nodes| == |d'.nodes| == n && x <= |d.nodes[i].log| && x <= |d'.nodes[i].log|
      && d'.nodes[i].log[..x] == d.nodes[i].log[..x]
  {
    hide CleanRun, Exec, Init, ShadowOf, Wf, Follows, Step, ShadowStep;
    StepOf(n, events, e);
    SureOf(n, events, i);
    SureOf(n, events + [e], i);
    NodeMoves(Exec(Init(n), events), e, i);
    WholeStays(n, events, e, i, Exec(Init(n), events).nodes[i].lastApplied);
  }

  /** Everything but the snapshot on disk survives a step of the node. */
  lemma ServerStays(v: Server, n: Node, log: Log, n': Node, log': Log)
    requires RightState(v, n, log) && HandedRight(v, n, log)
    requires n.lastApplied <= n'.lastApplied <= |log'| && n.snapIndex <= n'.snapIndex <= n'.lastApplied
    requires log'[..n.lastApplied] == log[..n.lastApplied]
    ensures RightState(v, n', log') && HandedRight(v, n', log')
  {
    hide StateOf;
    SameStates(log, log', n.lastApplied);
    forall h | Genuine(h, n, log) ensures Genuine(h, n', log') {
      GenuineStays(h, n, log, n', log');
    }
  }

  lemma GenuineStays(h: Handed, n: Node, log: Log, n': Node, log': Log)
    requires Genuine(h, n, log) && n.snapIndex <= n.lastApplied <= |log| && n.lastApplied <= n'.lastApplied <= |log'|
    requires n.snapIndex <= n'.snapIndex && log'[..n.lastApplied] == log[..n.lastApplied]
    ensures Genuine(h, n', log')
  {
    hide StateOf;
    match h
    case Command(m) => assert log'[..n.lastApplied][m.index - 1] == log[..n.lastApplied][m.index - 1];
    case Load(index, image) => SameStates(log, log', n.lastApplied);
  }

  lemma SavedStays(saved: Option<Image>, snapIndex: nat, log: Log, log': Log)
    requires SavedRight(saved, snapIndex, log) && snapIndex <= |log| && snapIndex <= |log'|
    requires log'[..snapIndex] == log[..snapIndex]
    ensures SavedRight(saved, snapIndex, log')
  {
    hide StateOf;
    SameStates(log, log', snapIndex);
  }

  // ---------- the steps of Raft ----------

  ghost predicate TakesOverAt(c: Cluster, e: Event, i: nat)
  {
    && e.DeliverInstall? && CanDeliverInstall(c, e.install) && c.sn.installs[e.install].peer == i
    && Takes(c.nodes[i], c.sn.installs[e.install].args)
  }

  lemma SnapStays(c: Cluster, e: Event, i: nat)
    requires Wf(c) && i < |c.nodes| && !e.TakeSnapshot? && !TakesOverAt(c, e, i)
    ensures Step(c, e).nodes[i].snapIndex == c.nodes[i].snapIndex
  {
    hide Wf, AppendEntries, InstallSnapshot, Takes, Start, AllKeep, AllTrim, NoCoups, Keeps;
    StepMoves(c, e);
    match e
    case ClientStart(j, command) => StartSnap(c.nodes[i], command);
    case DeliverAppend(k) => if CanDeliverAppend(c, k) {
      CleanShadows.AppendSnap(c.nodes[k.peer], c.re.beats[k.round].sent[k.peer]);
      DeliverAppendMoves(c, k);
    }
    case DeliverInstall(k) => if CanDeliverInstall(c, k) {
      CleanShadows.InstallSnap(c.nodes[c.sn.installs[k].peer], c.sn.installs[k].args);
    }
    case TakeSnapshot(j, index) =>
    case _ => assert SameLog(c.nodes[i], Step(c, e).nodes[i]);
  }

  lemma StartSnap(n: Node, command: Op)
    ensures Start(n, command).snapIndex == n.snapIndex
  {
  }

  /** A server whose node only moved on. */
  lemma UntouchedKeeps(n: nat, events: seq<Event>, e: Event, i: nat, v: Server)
    requires CleanRun(n, events + [e]) && i < n && e != Crash(i) && !e.TakeSnapshot?
    requires !TakesOverAt(Exec(Init(n), events), e, i) && |ShadowOf(n, events).full.nodes| == n
    requires var c := Exec(Init(n), events);
      RightServer(v, c.nodes[i], ShadowOf(n, events).full.nodes[i].log)
    ensures |ShadowOf(n, events + [e]).full.nodes| == n
    ensures RightServer(v, Exec(Init(n), events + [e]).nodes[i], ShadowOf(n, events + [e]).full.nodes[i].log)
  {
    hide CleanRun, Exec, Init, ShadowOf, Wf, Follows, Step, ShadowStep, RightState, HandedRight, SavedRight;
    hide TakesOverAt;
    var c := Exec(Init(n), events);
    StepOf(n, events, e);
    SnapStays(c, e, i);
    MovedOn(n, events, e, i, v);
  }

  /** All but the snapshot on disk, whatever the step, short of a crash. */
  lemma MovedOn(n: nat, events: seq<Event>, e: Event, i: nat, v: Server)
    requires CleanRun(n, events + [e]) && i < n && e != Crash(i) && |ShadowOf(n, events).full.nodes| == n
    requires RightServer(v, Exec(Init(n), events).nodes[i], ShadowOf(n, events).full.nodes[i].log)
    ensures var c, c', d' := Exec(Init(n), events), Exec(Init(n), events + [e]), ShadowOf(n, events + [e]).full;
      && |d'.nodes| == n
      && RightState(v, c'.nodes[i], d'.nodes[i].log) && HandedRight(v, c'.nodes[i], d'.nodes[i].log)
      && SavedRight(v.saved, c.nodes[i].snapIndex, d'.nodes[i].log)
  {
    hide CleanRun, Exec, Init, ShadowOf, Wf, Follows, Step, ShadowStep, HandedRight, SavedRight, StateOf;
    var c, c', d, d' := Exec(Init(n), events), Exec(Init(n), events + [e]), ShadowOf(n, events).full,
        ShadowOf(n, events + [e]).full;
    StepOf(n, events, e);
    AppliedStays(n, events, e, i);
    NodeMoves(c, e, i);
    SureOf(n, events + [e], i);
    SureShown(n, events + [e], i);
    var x := c.nodes[i].snapIndex;
    assert d'.nodes[i].log[..x] == d'.nodes[i].log[..c.nodes[i].lastApplied][..x] == d.nodes[i].log[..x];
    ServerStays(v, c.nodes[i], d.nodes[i].log, c'.nodes[i], d'.nodes[i].log);
    SavedStays(v.saved, x, d.nodes[i].log, d'.nodes[i].log);
  }

  lemma SureShown(n: nat, events: seq<Event>, i: nat)
    requires i < n
    ensures var c, d := Exec(Init(n), events), ShadowOf(n, events).full;
      && |d.nodes| == n && Sure(c.nodes[i]) <= |d.nodes[i].log| && IsFull(c.nodes[i], d.nodes[i].log)
      && c.nodes[i].Valid()
  {
    hide Exec, Init, ShadowOf;
    NodeMirror(Exec(Init(n), events), ShadowOf(n, events), i);
    SureLength(Exec(Init(n), events).nodes[i], ShadowOf(n, events).full.nodes[i].log);
  }

  lemma CrashKeeps(n: nat, events: seq<Event>, i: nat, v: Server)
    requires CleanRun(n, events + [Crash(i)]) && i < n && |ShadowOf(n, events).full.nodes| == n
    requires RightServer(v, Exec(Init(n), events).nodes[i], ShadowOf(n, events).full.nodes[i].log)
    ensures var c', d' := Exec(Init(n), events + [Crash(i)]), ShadowOf(n, events + [Crash(i)]).full;
      && |d'.nodes| == n
      && RightServer(Started(v.saved, c'.nodes[i].snapIndex), c'.nodes[i], d'.nodes[i].log)
  {
    hide CleanRun, Exec, Init, ShadowOf, Wf, Follows, Step, ShadowStep, HandedRight, SavedRight, RightState;
    var e := Crash(i);
    var c, c', d, d' := Exec(Init(n), events), Exec(Init(n), events + [e]), ShadowOf(n, events).full,
        ShadowOf(n, events + [e]).full;
    StepOf(n, events, e);
    SureOf(n, events, i);
    SureOf(n, events + [e], i);
    SureShown(n, events, i);
    SureShown(n, events + [e], i);
    CrashNode(c, i);
    WholeStays(n, events, e, i, c.nodes[i].snapIndex);
    SavedStays(v.saved, c.nodes[i].snapIndex, d.nodes[i].log, d'.nodes[i].log);
    StartedRight(v.saved, c'.nodes[i], d'.nodes[i].log);
  }

  lemma StartedRight(saved: Option<Image>, n: Node, log: Log)
    requires SavedRight(saved, n.snapIndex, log) && n.snapIndex == n.lastApplied <= |log|
    ensures RightServer(Started(saved, n.snapIndex), n, log)
  {
    if saved.Some? {
      RestoreAndReplay(Ops(log[..n.snapIndex]), n.snapIndex, saved.value) by {
        assert Ops(log[..n.snapIndex])[..n.snapIndex] == Ops(log[..n.snapIndex]);
      }
      assert Ops(log[..n.snapIndex])[n.snapIndex..] == [];
    }
  }

  lemma ApplyKeeps(n: nat, events: seq<Event>, i: nat, v: Server)
    requires CleanRun(n, events + [Apply(i)]) && i < n && |ShadowOf(n, events).full.nodes| == n
    requires Alive(Exec(Init(n), events), i) && Exec(Init(n), events).nodes[i].Valid()
    requires RightServer(v, Exec(Init(n), events).nodes[i], ShadowOf(n, events).full.nodes[i].log)
    ensures var c, c', d' := Exec(Init(n), events), Exec(Init(n), events + [Apply(i)]),
        ShadowOf(n, events + [Apply(i)]).full;
      && |d'.nodes| == n
      && RightServer(v.(outbox := v.outbox + ApplyLogs(c.nodes[i]).1), c'.nodes[i], d'.nodes[i].log)
  {
    hide CleanRun, Exec, Init, ShadowOf, Wf, Follows, Step, ShadowStep, SavedRight, Genuine, StateOf, IsFull, ApplyLogs;
    hide ImageAt;
    var e := Apply(i);
    var c, c', d' := Exec(Init(n), events), Exec(Init(n), events + [e]), ShadowOf(n, events + [e]).full;
    StepOf(n, events, e);
    MovedOn(n, events, e, i, v);
    ApplyNode(c, i);
    SureShown(n, events + [e], i);
    AppliedGenuine(c.nodes[i], c'.nodes[i], d'.nodes[i].log);
  }

  lemma AppliedGenuine(n: Node, n': Node, log: Log)
    requires n.Valid() && n' == ApplyLogs(n).0 && n'.Valid() && IsFull(n', log)
    ensures forall m | m in ApplyLogs(n).1 :: Genuine(Command(m), n', log)
  {
    WholeView(n', log);
    forall m | m in ApplyLogs(n).1 ensures Genuine(Command(m), n', log) {
      GivenEntry(n, m);
      assert EntryAt(n', m.index) == log[m.index - 1];
    }
  }

  lemma InstallKeeps(n: nat, events: seq<Event>, k: nat, i: nat, v: Server, parcel: Option<Image>)
    requires CleanRun(n, events + [DeliverInstall(k)]) && i < n && |ShadowOf(n, events).full.nodes| == n
    requires TakesOverAt(Exec(Init(n), events), DeliverInstall(k), i) && k < |ShadowOf(n, events).payloads|
    requires RightServer(v, Exec(Init(n), events).nodes[i], ShadowOf(n, events).full.nodes[i].log)
    requires var args := Exec(Init(n), events).sn.installs[k].args;
      SavedRight(parcel, args.snapIndex, ShadowOf(n, events).payloads[k])
    ensures var args := Exec(Init(n), events).sn.installs[k].args;
      var c', d' := Exec(Init(n), events + [DeliverInstall(k)]), ShadowOf(n, events + [DeliverInstall(k)]).full;
      && |d'.nodes| == n
      && RightServer(v.(loads := v.loads + [Load(args.snapIndex, parcel)], saved := parcel), c'.nodes[i],
                     d'.nodes[i].log)
  {
    hide CleanRun, Exec, Init, ShadowOf, Wf, Follows, Step, ShadowStep, StateOf, IsFull;
    var e := DeliverInstall(k);
    var c, c', d' := Exec(Init(n), events), Exec(Init(n), events + [e]), ShadowOf(n, events + [e]).full;
    SureShown(n, events + [e], i);
    var args, log := c.sn.installs[k].args, d'.nodes[i].log;
    StepOf(n, events, e);
    MovedOn(n, events, e, i, v);
    InstalledNode(c, k, i);
    PayloadShown(n, events, e, k, i);
    SameStates(ShadowOf(n, events).payloads[k], log, args.snapIndex);
  }

  lemma InstalledNode(c: Cluster, k: nat, i: nat)
    requires Wf(c) && TakesOverAt(c, DeliverInstall(k), i)
    ensures Step(c, DeliverInstall(k)).nodes[i].snapIndex == c.sn.installs[k].args.snapIndex > 0
  {
    hide Wf, InstallSnapshot;
    CleanShadows.InstallSnap(c.nodes[i], c.sn.installs[k].args);
  }

  /** The node has in its log what the snapshot it took over stands for. */
  lemma PayloadShown(n: nat, events: seq<Event>, e: Event, k: nat, i: nat)
    requires CleanRun(n, events + [e]) && i < n && k < |Exec(Init(n), events).sn.installs|
    requires Exec(Init(n), events + [e]).nodes[i].snapIndex == Exec(Init(n), events).sn.installs[k].args.snapIndex
    ensures var x := Exec(Init(n), events).sn.installs[k].args.snapIndex;
      var payloads, d' := ShadowOf(n, events).payloads, ShadowOf(n, events + [e]).full;
      && k < |payloads| && |d'.nodes| == n && x <= |d'.nodes[i].log| && |payloads[k]| == x
      && d'.nodes[i].log[..x] == payloads[k][..x]
  {
    hide CleanRun, Exec, Init, ShadowOf, Wf, IsFull;
    var j, all := |events|, events + [e];
    assert all[..j] == events && all[..j + 1] == all;
    SnapshotsAgree(n, all, j, j + 1, k, i);
    SureShown(n, all, i);
    var payload := ShadowOf(n, events).payloads[k];
    assert payload[..|payload|] == payload;
  }

  // ---------- parcels ----------

  lemma ParcelsKeep(n: nat, events: seq<Event>, s: Service, e: Event)
    requires Fit(s) && s.c == Exec(Init(n), events) && Right(s, ShadowOf(n, events)) && !e.TakeSnapshot?
    ensures ParcelsRight(RaftStep(s, e).c.sn.installs, RaftStep(s, e).parcels, ShadowOf(n, events + [e]).payloads)
  {
    hide Wf, Exec, Init, ShadowOf, Follows, ShadowStep, ParcelsRight, RightServer, ApplyLogs, Restored;
    var c, sh, s' := s.c, ShadowOf(n, events), RaftStep(s, e);
    StepOf(n, events, e);
    CleanShadows.InstallsShape(c, sh, e);
    RaftShape(s, e);
    if e.SendSnapshot? && Alive(c, e.i) && (e.i, e.peer) in c.sn.threads {
      NodeMirror(c, sh, e.i);
      ParcelSent(s.servers[e.i], c.nodes[e.i], sh.full.nodes[e.i].log) by { ServerOf(s, sh, e.i); }
      ParcelsPush(c.sn.installs, s.parcels, sh.payloads, InstallCall(e.i, e.peer, InstallArgsOf(c.nodes[e.i])),
                  s.servers[e.i].saved, sh.full.nodes[e.i].log[..c.nodes[e.i].snapIndex]);
    }
  }

  lemma RaftShape(s: Service, e: Event)
    requires Fit(s) && !e.TakeSnapshot?
    ensures RaftStep(s, e).c == Step(s.c, e)
    ensures RaftStep(s, e).parcels == s.parcels
      + if e.SendSnapshot? && Alive(s.c, e.i) && (e.i, e.peer) in s.c.sn.threads then [s.servers[e.i].saved] else []
  {
    hide Wf, Restored, ApplyLogs, Step;
    IdleStep(s.c, e);
  }

  lemma ServerOf(s: Service, sh: Shadow, i: nat)
    requires Right(s, sh) && i < |s.servers|
    ensures i < |s.c.nodes| == |sh.full.nodes| && RightServer(s.servers[i], s.c.nodes[i], sh.full.nodes[i].log)
  {
    hide RightServer;
  }

  lemma ParcelSent(v: Server, n: Node, log: Log)
    requires RightServer(v, n, log)
    ensures n.snapIndex <= |log| && SavedRight(v.saved, n.snapIndex, log[..n.snapIndex])
  {
    hide HandedRight, StateOf;
    SavedStays(v.saved, n.snapIndex, log, log[..n.snapIndex]);
  }

  lemma ParcelsPush(installs: seq<InstallCall>, parcels: seq<Option<Image>>, payloads: seq<Log>, call: InstallCall,
                    parcel: Option<Image>, payload: Log)
    requires ParcelsRight(installs, parcels, payloads) && SavedRight(parcel, call.args.snapIndex, payload)
    ensures ParcelsRight(installs + [call], parcels + [parcel], payloads + [payload])
  {
    hide SavedRight;
  }

  lemma ParcelOf(s: Service, sh: Shadow, k: nat)
    requires Right(s, sh) && k < |s.c.sn.installs|
    ensures k < |s.parcels| == |sh.payloads|
    ensures SavedRight(s.parcels[k], s.c.sn.installs[k].args.snapIndex, sh.payloads[k])
  {
    hide RightServer, SavedRight;
  }

  // ---------- all happenings ----------

  lemma RaftKeeps(n: nat, events: seq<Event>, s: Service, e: Event)
    requires Fit(s) && s.c == Exec(Init(n), events) && Right(s, ShadowOf(n, events))
    requires CleanRun(n, events + [e]) && !e.TakeSnapshot?
    ensures Right(RaftStep(s, e), ShadowOf(n, events + [e]))
  {
    hide Wf, CleanRun, Exec, Init, ShadowOf, ParcelsRight, RightServer, Follows;
    var s', sh' := RaftStep(s, e), ShadowOf(n, events + [e]);
    ParcelsKeep(n, events, s, e);
    forall i | 0 <= i < n
      ensures |sh'.full.nodes| == n && RightServer(s'.servers[i], s'.c.nodes[i], sh'.full.nodes[i].log)
    {
      RaftServerKeeps(n, events, s, e, i);
    }
    ShadowSize(n, events + [e]);
    RightJoin(s', sh', n);
  }

  lemma ShadowSize(n: nat, events: seq<Event>)
    ensures |ShadowOf(n, events).full.nodes| == |Exec(Init(n), events).nodes| == n
  {
    hide Exec, Init, ShadowOf;
    Sizes(Exec(Init(n), events), ShadowOf(n, events));
  }

  lemma RightJoin(s: Service, sh: Shadow, n: nat)
    requires Fit(s) && |sh.full.nodes| == |s.c.nodes| == n && ParcelsRight(s.c.sn.installs, s.parcels, sh.payloads)
    requires forall i | 0 <= i < n :: RightServer(s.servers[i], s.c.nodes[i], sh.full.nodes[i].log)
    ensures Right(s, sh)
  {
    hide RightServer, ParcelsRight;
  }

  lemma RaftServerKeeps(n: nat, events: seq<Event>, s: Service, e: Event, i: nat)
    requires Fit(s) && s.c == Exec(Init(n), events) && Right(s, ShadowOf(n, events)) && i < n
    requires CleanRun(n, events + [e]) && !e.TakeSnapshot?
    ensures var s', sh' := RaftStep(s, e), ShadowOf(n, events + [e]);
      && |sh'.full.nodes| == n && |s'.servers| == |s'.c.nodes| == n
      && RightServer(s'.servers[i], s'.c.nodes[i], sh'.full.nodes[i].log)
  {
    hide Wf, CleanRun, Exec, Init, ShadowOf, ParcelsRight, RightServer, Follows, Right, ApplyLogs, Step, Started;
    var sh, v := ShadowOf(n, events), s.servers[i];
    ShadowSize(n, events);
    StepOf(n, events, e);
    RaftShape(s, e);
    ServerOf(s, sh, i);
    if e == Crash(i) {
      CrashKeeps(n, events, i, v);
    } else if e == Apply(i) && Alive(s.c, i) {
      SureShown(n, events, i);
      ApplyKeeps(n, events, i, v);
    } else if TakesOverAt(s.c, e, i) {
      ParcelOf(s, sh, e.install);
      InstallKeeps(n, events, e.install, i, v, s.parcels[e.install]);
    } else {
      UntouchedKeeps(n, events, e, i, v);
      assert RaftStep(s, e).servers[i] == v;
    }
  }

  /** Raft takes the snapshot an apply thread has made, or not; nothing else of any server changes. */
  lemma GiveKeeps(n: nat, events: seq<Event>, s: Service, i: nat)
    requires Fit(s) && s.c == Exec(Init(n), events) && Right(s, ShadowOf(n, events)) && CanGive(s, i)
    requires CleanRun(n, events + [TakeSnapshot(i, s.servers[i].offer.value.index)])
    ensures Right(GiveStep(s, i), ShadowOf(n, events + [TakeSnapshot(i, s.servers[i].offer.value.index)]))
  {
    hide Wf, CleanRun, Exec, Init, ShadowOf, ParcelsRight, RightServer, Follows, Step, ShadowStep;
    var e := TakeSnapshot(i, s.servers[i].offer.value.index);
    var s', sh' := GiveStep(s, i), ShadowOf(n, events + [e]);
    StepOf(n, events, e);
    ShadowSize(n, events);
    ShadowSize(n, events + [e]);
    CleanShadows.InstallsShape(s.c, ShadowOf(n, events), e);
    forall j | 0 <= j < n ensures RightServer(s'.servers[j], s'.c.nodes[j], sh'.full.nodes[j].log) {
      GiveServerKeeps(n, events, s, i, j);
    }
    RightJoin(s', sh', n);
  }

  lemma GiveServerKeeps(n: nat, events: seq<Event>, s: Service, i: nat, j: nat)
    requires Fit(s) && s.c == Exec(Init(n), events) && Right(s, ShadowOf(n, events)) && CanGive(s, i) && j < n
    requires CleanRun(n, events + [TakeSnapshot(i, s.servers[i].offer.value.index)])
    ensures var s', sh' := GiveStep(s, i), ShadowOf(n, events + [TakeSnapshot(i, s.servers[i].offer.value.index)]);
      && |sh'.full.nodes| == n && |s'.servers| == |s'.c.nodes| == n
      && RightServer(s'.servers[j], s'.c.nodes[j], sh'.full.nodes[j].log)
  {
    hide Wf, CleanRun, Exec, Init, ShadowOf, ParcelsRight, Follows, Right, Step, ShadowStep, StateOf;
    var e := TakeSnapshot(i, s.servers[i].offer.value.index);
    ShadowSize(n, events);
    StepOf(n, events, e);
    ServerOf(s, ShadowOf(n, events), j);
    MovedOn(n, events, e, j, s.servers[j]);
    SnapshotNode(s.c, i, e.index, j);
    if j == i {
      SureOf(n, events, i);
      AppliedStays(n, events, e, i);
      SameStates(ShadowOf(n, events).full.nodes[i].log, ShadowOf(n, events + [e]).full.nodes[i].log,
                 s.c.nodes[i].lastApplied);
    }
  }

  lemma SnapshotNode(c: Cluster, i: nat, index: int, j: nat)
    requires Wf(c) && Alive(c, i) && j < |c.nodes|
    ensures var c' := Step(c, TakeSnapshot(i, index));
      && (j != i ==> c'.nodes[j] == c.nodes[j])
      && (c'.nodes[i].snapIndex != c.nodes[i].snapIndex ==> c'.nodes[i].snapIndex == index)
  {
    hide Wf;
  }
}
