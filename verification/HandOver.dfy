/** The order in which a server is handed things. The applier pushes commands in order; the thread that pushes an
    installed snapshot may be overtaken. Where it is not, every command a server carries out is the next one,
    so that a clean run goes right if and only if every snapshot loaded fits. */
module HandOver {
  import opened RaftTypes
  import opened RaftNode
  import opened NodeInvariants
  import opened RaftCluster
  import opened CleanRuns
  import LogAlgebra
  import opened Shadows
  import opened KvMachine
  import opened Services
  import opened ServerStates
  import opened ServerSteps
  import opened Replicas
  import D = Deliveries

  // ---------- prompt runs ----------

  /** While a snapshot waits to be pushed, neither the applier nor another installed snapshot gets ahead. */
  predicate PromptNext(s: Service, h: Happening)
  {
    match h
    case PushCommand(i) => i < |s.servers| ==> s.servers[i].loads == []
    case Raft(e) =>
      && (e.Apply? && e.i < |s.servers| ==> s.servers[e.i].loads == [])
      && (e.DeliverInstall? && e.install < |s.c.sn.installs| && s.c.sn.installs[e.install].peer < |s.servers| ==>
           s.servers[s.c.sn.installs[e.install].peer].loads == [])
    case _ => true
  }

  ghost predicate Prompt(n: nat, hs: seq<Happening>) { forall k | 0 <= k < |hs| :: PromptAt(n, hs, k) }

  ghost predicate PromptAt(n: nat, hs: seq<Happening>, k: nat)
    requires k < |hs|
  {
    PromptNext(Play(n, hs[..k]), hs[k])
  }

  lemma PromptBefore(n: nat, hs: seq<Happening>, j: nat)
    requires Prompt(n, hs) && j <= |hs|
    ensures Prompt(n, hs[..j])
  {
    hide PromptAt;
    forall k | 0 <= k < j ensures PromptAt(n, hs[..j], k) {
      PromptSame(n, hs, j, k);
    }
  }

  lemma PromptSame(n: nat, hs: seq<Happening>, j: nat, k: nat)
    requires k < j <= |hs|
    ensures PromptAt(n, hs[..j], k) <==> PromptAt(n, hs, k)
  {
    hide Play, PromptNext;
    assert hs[..j][..k] == hs[..k];
  }

  // ---------- a line of messages ----------

  /** Where a server stands that has come to `position` and has loaded a snapshot up to `upTo`. */
  datatype Place = Place(position: nat, upTo: nat)

  function After(p: Place, h: Handed): Place
  {
    match h
    case Command(m) => if m.index > p.upTo then Place(Max(p.position, m.index), p.upTo) else p
    case Load(index, image) => Place(Max(p.position, index), index)
  }

  function End(p: Place, line: seq<Handed>): Place
    decreases line
  {
    if line == [] then p else End(After(p, line[0]), line[1..])
  }

  /** Every command that is not covered by then is the next one. */
  predicate InTurn(p: Place, line: seq<Handed>)
    decreases line
  {
    line == [] || ((line[0].Command? && line[0].msg.index > p.upTo ==> line[0].msg.index == p.position + 1)
                   && InTurn(After(p, line[0]), line[1..]))
  }

  predicate LoadsUpTo(line: seq<Handed>, x: nat) { forall h | h in line && h.Load? :: h.index <= x }

  function Commands(msgs: seq<ApplyMsg>): seq<Handed>
  {
    seq(|msgs|, k requires 0 <= k < |msgs| => Command(msgs[k]))
  }

  lemma {:induction false} Joined(p: Place, a: seq<Handed>, b: seq<Handed>)
    ensures End(p, a + b) == End(End(p, a), b)
    ensures InTurn(p, a + b) <==> InTurn(p, a) && InTurn(End(p, a), b)
    decreases a
  {
    if a == [] {
      assert a + b == b;
    } else {
      assert (a + b)[0] == a[0] && (a + b)[1..] == a[1..] + b;
      Joined(After(p, a[0]), a[1..], b);
    }
  }

  /** A snapshot put in front of commands covers some of them and leaves the rest in turn. */
  lemma {:induction false} LoadCutsIn(p: Place, msgs: seq<ApplyMsg>, index: nat)
    requires InTurn(p, Commands(msgs)) && p.upTo <= index
    ensures InTurn(Place(Max(p.position, index), index), Commands(msgs))
    ensures End(Place(Max(p.position, index), index), Commands(msgs)).position
      == Max(End(p, Commands(msgs)).position, index)
    decreases msgs
  {
    if msgs != [] {
      assert Commands(msgs)[1..] == Commands(msgs[1..]);
      LoadCutsIn(After(p, Command(msgs[0])), msgs[1..], index);
    }
  }

  lemma {:induction false} UpToBounded(p: Place, line: seq<Handed>, x: nat)
    requires p.upTo <= x && LoadsUpTo(line, x)
    ensures End(p, line).upTo <= x
    decreases line
  {
    if line != [] {
      assert line[0] in line;
      UpToBounded(After(p, line[0]), line[1..], x);
    }
  }

  /** Consecutive commands from the place on. */
  lemma {:induction false} NextOnes(p: Place, msgs: seq<ApplyMsg>)
    requires p.upTo <= p.position && forall k | 0 <= k < |msgs| :: msgs[k].index == p.position + 1 + k
    ensures InTurn(p, Commands(msgs)) && End(p, Commands(msgs)).position == p.position + |msgs|
    decreases msgs
  {
    if msgs != [] {
      assert Commands(msgs)[1..] == Commands(msgs[1..]);
      forall k | 0 <= k < |msgs[1..]| ensures msgs[1..][k].index == p.position + 2 + k {
        assert msgs[1..][k] == msgs[k + 1];
      }
      NextOnes(After(p, Command(msgs[0])), msgs[1..]);
    }
  }

  // ---------- the invariant ----------

  function PlaceOf(v: Server): Place { Place(v.position, v.progress.upTo) }

  /** What the server will be handed, a waiting snapshot as if it were pushed now. */
  function Line(v: Server): seq<Handed> { v.channel + v.loads + Commands(v.outbox) }

  ghost predicate Lined(v: Server, n: Node)
  {
    && |v.loads| <= 1 && (forall h | h in v.loads :: h.Load?)
    && InTurn(PlaceOf(v), Line(v)) && End(PlaceOf(v), Line(v)).position == n.lastApplied
    && v.progress.upTo <= n.snapIndex <= n.lastApplied && v.progress.upTo <= v.position
    && LoadsUpTo(v.channel, n.snapIndex) && LoadsUpTo(v.loads, n.snapIndex)
    && (v.offer.Some? ==> v.offer.value.index <= v.position)
  }

  lemma {:induction false} PositionGrows(p: Place, line: seq<Handed>)
    ensures p.position <= End(p, line).position
    decreases line
  {
    if line != [] {
      PositionGrows(After(p, line[0]), line[1..]);
    }
  }

  lemma ServeLined(v: Server, n: Node, image: Option<Image>)
    requires Lined(v, n) && v.channel != [] && v.offer.None?
    requires image.Some? ==> Executes(v.progress, v.channel[0])
    ensures Executes(v.progress, v.channel[0]) ==> v.channel[0].msg.index == v.position + 1
    ensures Lined(AfterServing(v, image), n)
  {
    var v' := AfterServing(v, image);
    assert Line(v)[0] == v.channel[0] && Line(v)[1..] == Line(v');
    assert PlaceOf(v') == After(PlaceOf(v), v.channel[0]);
    assert v.channel[0] in v.channel;
  }

  lemma PushLined(v: Server, n: Node)
    requires Lined(v, n)
    ensures |v.loads| == 1 ==> Lined(v.(channel := v.channel + [v.loads[0]], loads := []), n)
    ensures v.loads == [] && v.outbox != [] ==>
      Lined(v.(channel := v.channel + [Command(v.outbox[0])], outbox := v.outbox[1..]), n)
  {
    if |v.loads| == 1 {
      assert v.loads == [v.loads[0]];
      assert v.channel + [v.loads[0]] + [] + Commands(v.outbox) == Line(v);
    } else if v.outbox != [] {
      assert v.channel + [Command(v.outbox[0])] + [] + Commands(v.outbox[1..]) == Line(v);
    }
  }

  lemma InstallLined(v: Server, n: Node, n': Node, image: Option<Image>)
    requires Lined(v, n) && v.loads == []
    requires n'.snapIndex > n.snapIndex && n'.lastApplied == Max(n.lastApplied, n'.snapIndex)
    ensures Lined(v.(loads := [Load(n'.snapIndex, image)], saved := image), n')
  {
    var p, l, b := PlaceOf(v), Load(n'.snapIndex, image), Commands(v.outbox);
    assert Line(v) == v.channel + b;
    Joined(p, v.channel, b);
    UpToBounded(p, v.channel, n.snapIndex);
    var q := End(p, v.channel);
    LoadCutsIn(q, v.outbox, n'.snapIndex);
    assert ([l] + b)[0] == l && ([l] + b)[1..] == b;
    assert v.channel + [l] + b == v.channel + ([l] + b);
    Joined(p, v.channel, [l] + b);
  }

  lemma ApplyLined(v: Server, n: Node)
    requires Lined(v, n) && v.loads == [] && n.Valid()
    ensures Lined(v.(outbox := v.outbox + ApplyLogs(n).1), ApplyLogs(n).0)
  {
    hide InTurn, End, After, ApplyLogs, Node.Valid;
    var p, msgs := PlaceOf(v), ApplyLogs(n).1;
    AppliedNext(n);
    UpToBounded(p, v.channel, n.snapIndex);
    Joined(p, v.channel, Commands(v.outbox));
    CommandsKeepUpTo(End(p, v.channel), v.outbox);
    assert Line(v) == v.channel + Commands(v.outbox);
    NextOnes(End(p, Line(v)), msgs);
    assert v.channel + [] + Commands(v.outbox + msgs) == Line(v) + Commands(msgs);
    Joined(p, Line(v), Commands(msgs));
  }

  lemma AppliedNext(n: Node)
    requires n.Valid()
    ensures var (n', msgs) := ApplyLogs(n);
      && n'.lastApplied == n.lastApplied + |msgs| && n'.snapIndex == n.snapIndex
      && forall k | 0 <= k < |msgs| :: msgs[k].index == n.lastApplied + 1 + k
  {
  }

  lemma {:induction false} CommandsKeepUpTo(p: Place, msgs: seq<ApplyMsg>)
    ensures End(p, Commands(msgs)).upTo == p.upTo
    decreases msgs
  {
    if msgs != [] {
      assert Commands(msgs)[1..] == Commands(msgs[1..]);
      CommandsKeepUpTo(After(p, Command(msgs[0])), msgs[1..]);
    }
  }

  lemma StartedLined(saved: Option<Image>, n: Node)
    requires n.snapIndex == n.lastApplied
    ensures Lined(Started(saved, n.snapIndex), n)
  {
  }

  // ---------- all happenings ----------

  ghost predicate AllLined(s: Service)
  {
    |s.servers| == |s.c.nodes| && forall i | 0 <= i < |s.servers| :: Lined(s.servers[i], s.c.nodes[i])
  }

  /** A node that moved on as far as its server can see. */
  lemma SameLined(v: Server, n: Node, n': Node)
    requires Lined(v, n) && n'.lastApplied == n.lastApplied && n.snapIndex <= n'.snapIndex <= n'.lastApplied
    ensures Lined(v, n')
  {
    hide InTurn, End;
  }

  lemma UntouchedNode(c: Cluster, e: Event, i: nat)
    requires Wf(c) && i < |c.nodes| && !e.TakeSnapshot? && !TakesOverAt(c, e, i) && e != Crash(i)
    requires !(e == Apply(i) && Alive(c, i))
    ensures var m, m' := c.nodes[i], Step(c, e).nodes[i];
      m'.lastApplied == m.lastApplied && m'.snapIndex == m.snapIndex && m'.snapIndex <= m'.lastApplied
  {
    hide WfVotes, WfBeats, WfInstalls, ApplyLogs, Restart;
    assert Sound(c.nodes[i]);
    SnapStays(c, e, i);
    if e.Apply? {
      ApplyNode(c, e.i);
    } else if e.Crash? {
      IdleStep(c, e);
      if e.i < |c.nodes| {
        CrashNode(c, e.i);
      }
    } else {
      hide Step, WfNodes;
      D.StepPaced(c, e);
      assert D.Paced(c.nodes[i], Step(c, e).nodes[i]);
    }
  }

  lemma InstalledPace(c: Cluster, k: nat, i: nat)
    requires Wf(c) && TakesOverAt(c, DeliverInstall(k), i)
    ensures i < |c.nodes|
    ensures var m, m' := c.nodes[i], Step(c, DeliverInstall(k)).nodes[i];
      && m'.snapIndex == c.sn.installs[k].args.snapIndex > m.snapIndex
      && m'.lastApplied == Max(m.lastApplied, m'.snapIndex)
  {
    hide Wf, InstallSnapshot;
    InstalledNode(c, k, i);
    D.StepPaced(c, DeliverInstall(k));
    assert D.Paced(c.nodes[i], Step(c, DeliverInstall(k)).nodes[i]);
  }

  lemma RaftLined(s: Service, e: Event, i: nat)
    requires Fit(s) && AllLined(s) && !e.TakeSnapshot? && PromptNext(s, Raft(e)) && i < |s.servers|
    ensures Lined(RaftStep(s, e).servers[i], RaftStep(s, e).c.nodes[i])
  {
    hide Wf, Lined, Step, ApplyLogs, Started, Takes;
    RaftShape(s, e);
    var v, m, m' := s.servers[i], s.c.nodes[i], Step(s.c, e).nodes[i];
    if e == Crash(i) {
      CrashNode(s.c, i);
      StartedLined(v.saved, m');
    } else if e == Apply(i) && Alive(s.c, i) {
      ApplyNode(s.c, i);
      ApplyLined(v, m);
    } else if TakesOverAt(s.c, e, i) {
      InstalledPace(s.c, e.install, i);
      InstallLined(v, m, m', s.parcels[e.install]);
      assert RaftStep(s, e).servers[i] ==
        v.(loads := [Load(m'.snapIndex, s.parcels[e.install])], saved := s.parcels[e.install]);
    } else {
      UntouchedNode(s.c, e, i);
      SameLined(v, m, m');
      assert RaftStep(s, e).servers[i] == v;
    }
  }

  lemma GiveLined(s: Service, i: nat, j: nat)
    requires Fit(s) && AllLined(s) && CanGive(s, i) && j < |s.servers|
    ensures Lined(GiveStep(s, i).servers[j], GiveStep(s, i).c.nodes[j])
  {
    hide Wf, InTurn, End, Step;
    SnapshotNode(s.c, i, s.servers[i].offer.value.index, j);
    assert Lined(s.servers[j], s.c.nodes[j]);
    if j == i {
      PositionGrows(PlaceOf(s.servers[i]), Line(s.servers[i]));
      GivenPace(s.c, i, s.servers[i].offer.value.index);
    }
  }

  lemma GivenPace(c: Cluster, i: nat, index: nat)
    requires Wf(c) && Alive(c, i) && index <= c.nodes[i].lastApplied
    ensures var m, m' := c.nodes[i], Step(c, TakeSnapshot(i, index)).nodes[i];
      m'.lastApplied == m.lastApplied && m.snapIndex <= m'.snapIndex <= m'.lastApplied
  {
    hide WfVotes, WfBeats, WfInstalls;
    assert Sound(c.nodes[i]);
  }

  lemma NextLined(s: Service, h: Happening)
    requires Fit(s) && AllLined(s) && PromptNext(s, h)
    ensures AllLined(Next(s, h))
  {
    hide Wf, Lined, RaftStep, GiveStep, AfterServing, CanShow;
    match h
    case Raft(e) =>
      if e.TakeSnapshot? {
        NoSnapshots(s, e);
      } else {
        RaftSize(s, e);
        forall i | 0 <= i < |s.servers| ensures Lined(RaftStep(s, e).servers[i], RaftStep(s, e).c.nodes[i]) {
          RaftLined(s, e, i);
        }
      }
    case PushCommand(i) => if Running(s, i) { PushLined(s.servers[i], s.c.nodes[i]); }
    case PushLoad(i, l) => if Running(s, i) && l < |s.servers[i].loads| { PushFirst(s.servers[i], s.c.nodes[i], l); }
    case Serve(i, image) =>
      if CanServe(s, i) && CanShow(s.servers[i].progress, s.servers[i].channel[0], image) {
        Shown(s.servers[i].progress, s.servers[i].channel[0], image);
        ServeLined(s.servers[i], s.c.nodes[i], image);
      }
    case GiveSnapshot(i) => if CanGive(s, i) {
      GiveSize(s, i);
      forall j | 0 <= j < |s.servers| ensures Lined(GiveStep(s, i).servers[j], GiveStep(s, i).c.nodes[j]) {
        GiveLined(s, i, j);
      }
    }
  }

  lemma NoSnapshots(s: Service, e: Event)
    requires Fit(s) && e.TakeSnapshot?
    ensures RaftStep(s, e) == s
  {
  }

  lemma RaftSize(s: Service, e: Event)
    requires Fit(s)
    ensures |RaftStep(s, e).servers| == |RaftStep(s, e).c.nodes| == |s.servers|
  {
    hide Wf, Restored, ApplyLogs, Takes;
  }

  lemma GiveSize(s: Service, i: nat)
    requires Fit(s) && CanGive(s, i)
    ensures |GiveStep(s, i).servers| == |GiveStep(s, i).c.nodes| == |s.servers|
  {
    hide Wf;
  }

  lemma Shown(p: Progress, h: Handed, image: Option<Image>)
    requires CanShow(p, h, image)
    ensures image.Some? ==> Executes(p, h)
  {
  }

  lemma PushFirst(v: Server, n: Node, l: nat)
    requires Lined(v, n) && l < |v.loads|
    ensures Lined(v.(channel := v.channel + [v.loads[l]], loads := v.loads[..l] + v.loads[l + 1..]), n)
  {
    hide InTurn, End;
    PushLined(v, n);
    assert v.loads[..l] + v.loads[l + 1..] == [];
  }

  lemma {:induction false} PromptLined(n: nat, hs: seq<Happening>)
    requires Prompt(n, hs)
    ensures AllLined(Play(n, hs))
  {
    hide PromptNext, Next, Lined, Opening, Play, AllLined, Fit;
    if hs == [] {
      OpeningLined(n);
      NothingYet(n);
    } else {
      PlayLast(n, hs);
      var before := hs[..|hs| - 1];
      PromptBefore(n, hs, |hs| - 1);
      assert PromptAt(n, hs, |hs| - 1);
      PromptLined(n, before);
      NextLined(Play(n, before), hs[|hs| - 1]);
    }
  }

  lemma PlayLast(n: nat, hs: seq<Happening>)
    requires hs != []
    ensures Play(n, hs) == Next(Play(n, hs[..|hs| - 1]), hs[|hs| - 1])
  {
    hide Next;
  }

  lemma OpeningLined(n: nat)
    ensures AllLined(Opening(n))
  {
    hide WfVotes, WfBeats, WfInstalls;
  }

  // ---------- what it means ----------

  /** Every command that a server carries out in the run is the one behind the last. */
  lemma InTurnAlways(n: nat, hs: seq<Happening>, k: nat, i: nat)
    requires Prompt(n, hs) && k <= |hs| && i < n
    ensures var s := Play(n, hs[..k]);
      && i < |s.servers|
      && (CanServe(s, i) && Executes(s.servers[i].progress, s.servers[i].channel[0]) ==>
        s.servers[i].channel[0].msg.index == s.servers[i].position + 1)
  {
    hide Prompt, Next, AfterServing, Play, Wf;
    PromptBefore(n, hs, k);
    PromptLined(n, hs[..k]);
    LogSize(n, hs[..k], i);
    var s := Play(n, hs[..k]);
    if CanServe(s, i) {
      ServeLined(s.servers[i], s.c.nodes[i], None);
    }
  }

  /** Every snapshot loaded in the run fits: further on than the server, it has every pair the server holds;
      behind it, every id. */
  ghost predicate LoadsFit(n: nat, hs: seq<Happening>) { forall k | 0 <= k < |hs| :: LoadFitsAt(n, hs, k) }

  ghost predicate LoadFitsAt(n: nat, hs: seq<Happening>, k: nat)
    requires k < |hs|
  {
    LoadNext(Play(n, hs[..k]), hs[k]) ==> FitsAt(n, hs, k)
  }

  ghost predicate LoadNext(s: Service, h: Happening) { Handles(s, h) && s.servers[h.i].channel[0].Load? }

  /** In a clean run in which no snapshot is overtaken on its way to a server, every server does what the log
      says if and only if every snapshot loaded fits. */
  lemma ProperIffLoadsFit(n: nat, hs: seq<Happening>)
    requires CleanRun(n, Trace(n, hs)) && Prompt(n, hs)
    ensures AllProper(n, hs) <==> LoadsFit(n, hs)
  {
    hide CleanRun, Trace, Prompt, AllProper, FitsAt, Play, LoadNext;
    ProperIffFits(n, hs);
    if LoadsFit(n, hs) {
      CommandsFit(n, hs);
    }
  }

  lemma {:induction false} CommandsFit(n: nat, hs: seq<Happening>)
    requires CleanRun(n, Trace(n, hs)) && Prompt(n, hs) && LoadsFit(n, hs)
    ensures AllFit(n, hs)
  {
    hide CleanRun, Trace, Play, ShadowOf, FitsAt, Prompt, LoadsFit, AllFit;
    if hs == [] {
      NothingHandled(n);
    } else {
      CleanBefore(n, hs, |hs| - 1);
      PromptBefore(n, hs, |hs| - 1);
      LoadsBefore(n, hs);
      CommandsFit(n, hs[..|hs| - 1]);
      LastFits(n, hs);
      AllAndLast(n, hs);
    }
  }

  lemma LoadsBefore(n: nat, hs: seq<Happening>)
    requires hs != [] && LoadsFit(n, hs)
    ensures LoadsFit(n, hs[..|hs| - 1])
  {
    hide LoadFitsAt;
    var before := hs[..|hs| - 1];
    forall k | 0 <= k < |before| ensures LoadFitsAt(n, before, k) {
      LoadSame(n, hs, |hs| - 1, k);
    }
  }

  lemma LoadSame(n: nat, hs: seq<Happening>, j: nat, k: nat)
    requires k < j <= |hs|
    ensures LoadFitsAt(n, hs[..j], k) <==> LoadFitsAt(n, hs, k)
  {
    hide *;
    AtPrefix(n, hs, j, k);
    var part := hs[..j];
    assert part[..k] == hs[..k] && part[k] == hs[k];
    LoadFitsShape(n, part, k);
    LoadFitsShape(n, hs, k);
  }

  lemma LoadFitsShape(n: nat, hs: seq<Happening>, k: nat)
    requires k < |hs|
    ensures LoadFitsAt(n, hs, k) <==> (LoadNext(Play(n, hs[..k]), hs[k]) ==> FitsAt(n, hs, k))
  {
  }

  lemma LastFits(n: nat, hs: seq<Happening>)
    requires CleanRun(n, Trace(n, hs)) && Prompt(n, hs) && LoadsFit(n, hs) && hs != []
    requires AllFit(n, hs[..|hs| - 1])
    ensures FitsAt(n, hs, |hs| - 1)
  {
    hide CleanRun, Trace, Play, ShadowOf, Prompt, AllFit, Wf, Fits, RightServer;
    var before, h := hs[..|hs| - 1], hs[|hs| - 1];
    var s, sh := Play(n, before), ShadowOf(n, Trace(n, before));
    assert hs[..|before|] == before;
    assert LoadFitsAt(n, hs, |hs| - 1);
    if Handles(s, h) && h.i < |sh.full.nodes| && s.servers[h.i].channel[0].Command? {
      CleanBefore(n, hs, |hs| - 1);
      ProperIffFits(n, before);
      ProperRight(n, before);
      LogSize(n, before, 0) by { Nonempty(n, before, h.i); }
      InTurnAlways(n, hs, |hs| - 1, h.i);
      CommandFits(s.servers[h.i], s.c.nodes[h.i], sh.full.nodes[h.i].log);
    }
  }

  lemma Nonempty(n: nat, hs: seq<Happening>, i: nat)
    requires i < |ShadowOf(n, Trace(n, hs)).full.nodes|
    ensures i < n
  {
    hide ShadowOf, Trace;
    ShadowSize(n, Trace(n, hs));
  }

  lemma CommandFits(v: Server, n: Node, log: LogAlgebra.Log)
    requires RightServer(v, n, log) && v.channel != [] && v.channel[0].Command?
    requires Executes(v.progress, v.channel[0]) ==> v.channel[0].msg.index == v.position + 1
    ensures Fits(v, v.channel[0], log)
  {
    hide StateOf, Idle;
    assert Genuine(v.channel[0], n, log);
    if Executes(v.progress, v.channel[0]) {
      NextFits(v, n, log, v.channel[0].msg);
    }
  }
}
