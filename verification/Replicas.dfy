/** Raft and the key-value machine together, in clean runs, snapshots included: the servers do what the log says
    if and only if every message they handle fits, and what follows for any two servers and for the snapshots
    they make. */
module Replicas {
  import opened RaftTypes
  import opened RaftNode
  import opened RaftCluster
  import opened CleanRuns
  import opened LogAlgebra
  import opened FullLogs
  import opened Shadows
  import opened Entries
  import opened KvMachine
  import opened Services
  import opened ServerStates
  import opened ServerSteps
  import opened Agreement

  /** The message server i is about to handle is handled right. */
  ghost predicate ProperNext(s: Service, sh: Shadow, h: Happening)
  {
    Handles(s, h) && h.i < |sh.full.nodes| ==>
      Proper(s.servers[h.i], s.servers[h.i].channel[0], sh.full.nodes[h.i].log)
  }

  /** It fits. */
  ghost predicate FitsNext(s: Service, sh: Shadow, h: Happening)
  {
    Handles(s, h) && h.i < |sh.full.nodes| ==>
      Fits(s.servers[h.i], s.servers[h.i].channel[0], sh.full.nodes[h.i].log)
  }

  lemma NextExactly(s: Service, sh: Shadow, h: Happening)
    requires Right(s, sh)
    ensures ProperNext(s, sh, h) <==> FitsNext(s, sh, h)
  {
    hide Proper, Fits, ParcelsRight, RightState, Genuine, SavedRight;
    if Handles(s, h) && h.i < |sh.full.nodes| {
      var v := s.servers[h.i];
      assert RightServer(v, s.c.nodes[h.i], sh.full.nodes[h.i].log);
      assert v.channel[0] in v.channel;
      ProperExactly(v, s.c.nodes[h.i], sh.full.nodes[h.i].log, v.channel[0]);
    }
  }

  lemma LoadMoves(v: Server, n: Node, log: Log, l: nat)
    requires RightServer(v, n, log) && l < |v.loads|
    ensures RightServer(v.(channel := v.channel + [v.loads[l]], loads := v.loads[..l] + v.loads[l + 1..]), n, log)
  {
    hide Genuine, ImageAt, StateOf;
  }

  lemma CommandMoves(v: Server, n: Node, log: Log)
    requires RightServer(v, n, log) && v.outbox != []
    ensures RightServer(v.(channel := v.channel + [Command(v.outbox[0])], outbox := v.outbox[1..]), n, log)
  {
    hide Genuine, ImageAt, StateOf;
  }

  lemma OneServer(s: Service, sh: Shadow, i: nat, v: Server)
    requires Right(s, sh) && i < |s.servers| && RightServer(v, s.c.nodes[i], sh.full.nodes[i].log)
    ensures Right(s.(servers := s.servers[i := v]), sh)
  {
    hide RightServer, ParcelsRight;
  }

  /** What happens inside one server. */
  lemma InsideKeeps(s: Service, sh: Shadow, h: Happening)
    requires Fit(s) && Right(s, sh) && ProperNext(s, sh, h) && EventOf(s, h) == []
    ensures Right(Next(s, h), sh)
  {
    hide Wf, Proper, Right, RightServer, AfterServing, CanShow;
    match h
    case Raft(e) =>
    case PushCommand(i) =>
      if Running(s, i) && s.servers[i].outbox != [] {
        ServerOf(s, sh, i);
        CommandMoves(s.servers[i], s.c.nodes[i], sh.full.nodes[i].log);
        OneServer(s, sh, i, Next(s, h).servers[i]);
      }
    case PushLoad(i, l) =>
      if Running(s, i) && l < |s.servers[i].loads| {
        ServerOf(s, sh, i);
        LoadMoves(s.servers[i], s.c.nodes[i], sh.full.nodes[i].log, l);
        OneServer(s, sh, i, Next(s, h).servers[i]);
      }
    case Serve(i, image) =>
      if CanServe(s, i) && CanShow(s.servers[i].progress, s.servers[i].channel[0], image) {
        ServerOf(s, sh, i);
        ServeKeeps(s.servers[i], s.c.nodes[i], sh.full.nodes[i].log, image);
        OneServer(s, sh, i, AfterServing(s.servers[i], image));
      }
    case GiveSnapshot(i) =>
  }

  // ---------- runs ----------

  /** Happening k of the run handles its message right. */
  ghost predicate ProperAt(n: nat, hs: seq<Happening>, k: nat)
    requires k < |hs|
  {
    ProperNext(Play(n, hs[..k]), ShadowOf(n, Trace(n, hs[..k])), hs[k])
  }

  /** The message of happening k fits. */
  ghost predicate FitsAt(n: nat, hs: seq<Happening>, k: nat)
    requires k < |hs|
  {
    FitsNext(Play(n, hs[..k]), ShadowOf(n, Trace(n, hs[..k])), hs[k])
  }

  ghost predicate AllProper(n: nat, hs: seq<Happening>) { forall k | 0 <= k < |hs| :: ProperAt(n, hs, k) }

  ghost predicate AllFit(n: nat, hs: seq<Happening>) { forall k | 0 <= k < |hs| :: FitsAt(n, hs, k) }

  lemma AtPrefix(n: nat, hs: seq<Happening>, j: nat, k: nat)
    requires k < j <= |hs|
    ensures ProperAt(n, hs[..j], k) <==> ProperAt(n, hs, k)
    ensures FitsAt(n, hs[..j], k) <==> FitsAt(n, hs, k)
  {
    hide Play, ShadowOf, Trace, ProperNext, FitsNext;
    assert hs[..j][..k] == hs[..k];
  }

  lemma AllBefore(n: nat, hs: seq<Happening>, j: nat)
    requires j <= |hs|
    ensures AllProper(n, hs) ==> AllProper(n, hs[..j])
    ensures AllFit(n, hs) ==> AllFit(n, hs[..j])
  {
    hide ProperAt, FitsAt;
    forall k | 0 <= k < j
      ensures ProperAt(n, hs[..j], k) <==> ProperAt(n, hs, k)
      ensures FitsAt(n, hs[..j], k) <==> FitsAt(n, hs, k)
    {
      AtPrefix(n, hs, j, k);
    }
  }

  /** One more happening. */
  lemma AllAndLast(n: nat, hs: seq<Happening>)
    requires hs != []
    ensures AllProper(n, hs) <==> AllProper(n, hs[..|hs| - 1]) && ProperAt(n, hs, |hs| - 1)
    ensures AllFit(n, hs) <==> AllFit(n, hs[..|hs| - 1]) && FitsAt(n, hs, |hs| - 1)
  {
    hide ProperAt, FitsAt;
    AllBefore(n, hs, |hs| - 1);
    forall k | 0 <= k < |hs| - 1
      ensures ProperAt(n, hs[..|hs| - 1], k) <==> ProperAt(n, hs, k)
      ensures FitsAt(n, hs[..|hs| - 1], k) <==> FitsAt(n, hs, k)
    {
      AtPrefix(n, hs, |hs| - 1, k);
    }
  }

  lemma StepKeepsRight(n: nat, hs: seq<Happening>, h: Happening)
    requires CleanRun(n, Trace(n, hs + [h])) && Right(Play(n, hs), ShadowOf(n, Trace(n, hs)))
    requires ProperNext(Play(n, hs), ShadowOf(n, Trace(n, hs)), h)
    ensures Right(Play(n, hs + [h]), ShadowOf(n, Trace(n, hs + [h])))
  {
    hide Wf, CleanRun, Exec, Init, ShadowOf, Follows, Right, ProperNext, Next, EventOf, RaftStep, GiveStep;
    assert (hs + [h])[..|hs|] == hs;
    var s, events := Play(n, hs), Trace(n, hs);
    TraceCluster(n, hs);
    assert Play(n, hs + [h]) == Next(s, h) && Trace(n, hs + [h]) == events + EventOf(s, h);
    if EventOf(s, h) == [] {
      assert events + [] == events;
      InsideKeeps(s, ShadowOf(n, events), h);
    } else {
      EventHappens(s, h);
      if h.Raft? {
        RaftKeeps(n, events, s, h.e);
      } else {
        GiveKeeps(n, events, s, h.i);
      }
    }
  }

  lemma EventHappens(s: Service, h: Happening)
    requires Fit(s) && EventOf(s, h) != []
    ensures h.Raft? || h.GiveSnapshot?
    ensures h.Raft? ==> !h.e.TakeSnapshot? && EventOf(s, h) == [h.e] && Next(s, h) == RaftStep(s, h.e)
    ensures h.GiveSnapshot? ==> CanGive(s, h.i) && Next(s, h) == GiveStep(s, h.i)
    ensures h.GiveSnapshot? ==> EventOf(s, h) == [TakeSnapshot(h.i, s.servers[h.i].offer.value.index)]
  {
    hide Wf;
  }

  lemma TraceGrows(n: nat, hs: seq<Happening>, h: Happening)
    ensures Trace(n, hs) <= Trace(n, hs + [h])
  {
    assert (hs + [h])[..|hs|] == hs;
  }

  lemma {:induction false} TracePrefix(n: nat, hs: seq<Happening>, k: nat)
    requires k <= |hs|
    ensures Trace(n, hs[..k]) <= Trace(n, hs)
    decreases |hs|
  {
    hide Trace;
    if k < |hs| {
      var before := hs[..|hs| - 1];
      TracePrefix(n, before, k);
      assert before[..k] == hs[..k] && before + [hs[|hs| - 1]] == hs;
      TraceGrows(n, before, hs[|hs| - 1]);
    } else {
      assert hs[..k] == hs;
    }
  }

  lemma CleanBefore(n: nat, hs: seq<Happening>, k: nat)
    requires CleanRun(n, Trace(n, hs)) && k <= |hs|
    ensures CleanRun(n, Trace(n, hs[..k]))
  {
    hide CleanRun, Trace;
    TracePrefix(n, hs, k);
    var events, part := Trace(n, hs), Trace(n, hs[..k]);
    CleanPrefix(n, events, |part|);
    assert events[..|part|] == part;
  }

  lemma OpeningRight(n: nat)
    ensures Right(Opening(n), ShadowOf(n, []))
  {
  }

  /** As long as every message is handled right, every server is right. */
  lemma {:induction false} ProperRight(n: nat, hs: seq<Happening>)
    requires CleanRun(n, Trace(n, hs)) && AllProper(n, hs)
    ensures Right(Play(n, hs), ShadowOf(n, Trace(n, hs)))
  {
    hide Wf, CleanRun, Exec, Init, ShadowOf, Follows, Right, ProperNext, Trace, Next, AllProper;
    if hs == [] {
      OpeningRight(n);
      assert Trace(n, hs) == [] by { NothingYet(n); }
    } else {
      var before, h := hs[..|hs| - 1], hs[|hs| - 1];
      assert before + [h] == hs;
      CleanBefore(n, hs, |hs| - 1);
      AllAndLast(n, hs);
      ProperRight(n, before);
      StepKeepsRight(n, before, h);
    }
  }

  // ---------- what holds when every message fits ----------

  /** In a clean run every message is handled right if and only if every message fits. */
  lemma {:induction false} ProperIffFits(n: nat, hs: seq<Happening>)
    requires CleanRun(n, Trace(n, hs))
    ensures AllProper(n, hs) <==> AllFit(n, hs)
  {
    hide Wf, CleanRun, Exec, Init, ShadowOf, Follows, Right, ProperNext, FitsNext, Trace, Play, AllProper, AllFit;
    if hs == [] {
      NothingHandled(n);
    } else {
      var before := hs[..|hs| - 1];
      CleanBefore(n, hs, |hs| - 1);
      ProperIffFits(n, before);
      AllAndLast(n, hs);
      if AllProper(n, before) {
        ProperRight(n, before);
        NextExactly(Play(n, before), ShadowOf(n, Trace(n, before)), hs[|hs| - 1]);
      }
    }
  }

  lemma NothingHandled(n: nat)
    ensures AllProper(n, []) && AllFit(n, [])
  {
  }

  /** The whole log of node i at this point of a service run. */
  ghost function LogOf(n: nat, hs: seq<Happening>, i: nat): (log: Log)
    requires i < n
    ensures |Play(n, hs).c.nodes| == |Play(n, hs).servers| == n && IsFull(Play(n, hs).c.nodes[i], log)
  {
    TraceCluster(n, hs);
    SureShown(n, Trace(n, hs), i);
    ShadowSize(n, Trace(n, hs));
    ShadowOf(n, Trace(n, hs)).full.nodes[i].log
  }

  /** As long as every message fits, every server is in the state of its log up to its position, and every
      image on a disk or on its way to Raft or to the server is one of the log. */
  lemma ServersRight(n: nat, hs: seq<Happening>, k: nat, i: nat)
    requires CleanRun(n, Trace(n, hs)) && AllFit(n, hs) && k <= |hs| && i < n
    ensures var s, log := Play(n, hs[..k]), LogOf(n, hs[..k], i);
      |s.servers| == |s.c.nodes| == n && RightServer(s.servers[i], s.c.nodes[i], log)
  {
    hide CleanRun, ShadowOf, Trace, Play, AllFit, AllProper, Exec, Init, Wf, RightServer, ParcelsRight;
    CleanBefore(n, hs, k);
    AllBefore(n, hs, k);
    ProperIffFits(n, hs[..k]);
    ProperRight(n, hs[..k]);
    LogSize(n, hs[..k], i);
  }

  lemma LogSize(n: nat, hs: seq<Happening>, i: nat)
    requires i < n
    ensures |Play(n, hs).c.nodes| == |Play(n, hs).servers| == n == |ShadowOf(n, Trace(n, hs)).full.nodes|
    ensures LogOf(n, hs, i) == ShadowOf(n, Trace(n, hs)).full.nodes[i].log
  {
    hide Wf, ShadowOf, Trace, Play, Exec, Init;
    ShadowSize(n, Trace(n, hs));
    TraceCluster(n, hs);
    assert Fit(Play(n, hs));
  }

  /** Any two servers that have come equally far, at whatever times, have equal tables and ids. */
  lemma ReplicasAgree(n: nat, hs: seq<Happening>, j: nat, k: nat, a: nat, b: nat)
    requires CleanRun(n, Trace(n, hs)) && AllFit(n, hs) && j <= |hs| && k <= |hs| && a < n && b < n
    requires |Play(n, hs[..j]).servers| == |Play(n, hs[..k]).servers| == n
    requires Play(n, hs[..j]).servers[a].position == Play(n, hs[..k]).servers[b].position
    ensures Play(n, hs[..j]).servers[a].progress.state == Play(n, hs[..k]).servers[b].progress.state
  {
    hide CleanRun, ShadowOf, Trace, Play, AllFit, Exec, Init, Wf, StateOf, HandedRight, SavedRight, IsFull;
    ServersRight(n, hs, j, a);
    ServersRight(n, hs, k, b);
    var x := Play(n, hs[..j]).servers[a].position;
    LogsAgree(n, hs, j, k, a, b, x);
    SameStates(LogOf(n, hs[..j], a), LogOf(n, hs[..k], b), x);
  }

  lemma LogsAgree(n: nat, hs: seq<Happening>, j: nat, k: nat, a: nat, b: nat, x: nat)
    requires CleanRun(n, Trace(n, hs)) && j <= |hs| && k <= |hs| && a < n && b < n
    requires |Play(n, hs[..j]).c.nodes| == |Play(n, hs[..k]).c.nodes| == n
    requires x <= Play(n, hs[..j]).c.nodes[a].lastApplied && x <= Play(n, hs[..k]).c.nodes[b].lastApplied
    ensures var f, g := LogOf(n, hs[..j], a), LogOf(n, hs[..k], b); x <= |f| && x <= |g| && f[..x] == g[..x]
  {
    hide CleanRun, ShadowOf, Trace, Play, Exec, Init, Wf, SameUpTo, IsFull, ShadowAt;
    var events, p, q := Trace(n, hs), |Trace(n, hs[..j])|, |Trace(n, hs[..k])|;
    TracePrefix(n, hs, j);
    TracePrefix(n, hs, k);
    assert events[..p] == Trace(n, hs[..j]) && events[..q] == Trace(n, hs[..k]);
    TraceCluster(n, hs[..j]);
    TraceCluster(n, hs[..k]);
    SureOf(n, Trace(n, hs[..j]), a);
    SureOf(n, Trace(n, hs[..k]), b);
    LogSize(n, hs[..j], a);
    LogSize(n, hs[..k], b);
    LogWhole(n, events, p, a);
    LogWhole(n, events, q, b);
    CommittedAgree(n, events, p, q, a, b, x);
  }

  lemma LogWhole(n: nat, events: seq<Event>, k: nat, i: nat)
    requires k <= |events| && i < n
    ensures At(n, events, k) == Exec(Init(n), events[..k])
    ensures |ShadowOf(n, events[..k]).full.nodes| == n
    ensures Whole(n, events, k, i) == ShadowOf(n, events[..k]).full.nodes[i].log
  {
    hide Exec, Init, ShadowOf;
    ShadowSize(n, events[..k]);
  }

  /** The first snapshot that does not fit is where a server goes wrong for a reason one can name. Further on,
      the table keeps a pair that the log says is another ... */
  lemma StaleValueStays(v: Server, n: Node, log: Log, index: nat, image: Image) returns (key: string)
    requires RightState(v, n, log) && ImageAt(image, log, index) && index >= v.position
    requires !Fits(v, Load(index, Some(image)), log)
    ensures var table := Handle(v.progress, Load(index, Some(image))).state.table;
      && key in table && key in v.progress.state.table && table[key] == v.progress.state.table[key]
      && key in StateOf(log, index).table && StateOf(log, index).table[key] != table[key]
  {
    hide StateOf;
    var s, t := v.progress.state, ToMap(image.dump);
    key :| key in s.table && !(key in t && t[key] == s.table[key]);
    OrderedDistinct(image.dump);
    LoadedOverridden(s.table, image.dump);
    OpsSplit(log, v.position, index);
    KeysStay(s, Ops(log[v.position..index]));
  }

  /** ... and behind it, the server forgets a write it has carried out: were the client to send it again, it
      would take effect again. */
  lemma WriteForgotten(v: Server, n: Node, log: Log, index: nat, image: Image) returns (op: Op)
    requires RightState(v, n, log) && ImageAt(image, log, index) && index < v.position
    requires !Fits(v, Load(index, Some(image)), log)
    ensures op in Ops(log[index..v.position]) && IsWrite(op) && Registered(v.progress.state.last, op)
    ensures !Registered(Handle(v.progress, Load(index, Some(image))).state.last, op)
  {
    var s, ops := StateOf(log, index), Ops(log[index..v.position]);
    OpsSplit(log, index, v.position);
    UnchangedExactly(s, ops);
    AtMostOnce(s, ops);
    op := Effective(s, ops)[0];
    assert TookEffect(s, ops, op);
  }
}
