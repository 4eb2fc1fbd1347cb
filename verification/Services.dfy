/** The whole service: the Raft cluster with the key-value server of each node on top. Raft hands a server
    what it applies through a channel; the applier pushes commands into it in order, and for every snapshot
    a node installs a thread of its own pushes that, whenever it gets to it (raft.cpp:654-664). */
module Services {
  import opened RaftTypes
  import opened RaftNode
  import opened RaftCluster
  import opened Entries
  import opened KvMachine

  /** A snapshot of the state after the command at this index, on its way to Raft. */
  datatype Offer = Offer(index: nat, image: Image)

  datatype Server = Server(
    progress: Progress,
    channel: seq<Handed>,       // applyChan_
    outbox: seq<ApplyMsg>,      // what the applier has fetched and not yet pushed
    loads: seq<Handed>,         // what threads started for installed snapshots will push
    offer: Option<Offer>,       // what the apply thread is about to give to Raft::snapshot
    saved: Option<Image>,       // the snapshot on disk
    position: nat)              // how far the server has come; history, read by no step

  /** `parcels` has the image of every snapshot call, as read from the sender's disk. */
  datatype Service = Service(c: Cluster, servers: seq<Server>, parcels: seq<Option<Image>>)

  datatype Happening =
    | Raft(e: Event)
    | PushCommand(i: nat)
    | PushLoad(i: nat, l: nat)
    | Serve(i: nat, image: Option<Image>)       // one message; the image is taken if the Raft state is large
    | GiveSnapshot(i: nat)

  // ---------- well-formed services ----------

  ghost predicate Fit(s: Service)
  {
    Wf(s.c) && |s.servers| == |s.c.nodes| && |s.parcels| == |s.c.sn.installs|
  }

  // ---------- the steps ----------

  /** Start-up: the snapshot on disk, if there is one, loaded into an empty table. */
  function Started(saved: Option<Image>, snapIndex: nat): Server
  {
    Server(Begun(saved), [], [], [], None, saved, snapIndex)
  }

  function Fresh(n: nat): seq<Server> { seq(n, _ => Started(None, 0)) }

  function Opening(n: nat): (s: Service)
    ensures Fit(s)
  {
    Service(Init(n), Fresh(n), [])
  }

  /** What a Raft step means for servers and parcels. Only servers take snapshots. */
  function RaftStep(s: Service, e: Event): (s': Service)
    requires Fit(s)
    ensures Fit(s')
  {
    var c' := Step(s.c, e);
    InstallsGrow(s.c, e);
    match e
    case TakeSnapshot(i, index) => s
    case Apply(i) =>
      if Alive(s.c, i) then
        s.(c := c', servers := s.servers[i := s.servers[i].(
          outbox := s.servers[i].outbox + ApplyLogs(s.c.nodes[i]).1)])
      else s
    case SendSnapshot(i, p) =>
      if Alive(s.c, i) && (i, p) in s.c.sn.threads then s.(c := c', parcels := s.parcels + [s.servers[i].saved]) else s
    case DeliverInstall(k) =>
      if CanDeliverInstall(s.c, k) && Takes(s.c.nodes[s.c.sn.installs[k].peer], s.c.sn.installs[k].args) then
        var call := s.c.sn.installs[k];
        var v := s.servers[call.peer];
        s.(c := c', servers := s.servers[call.peer := v.(
          loads := v.loads + [Load(call.args.snapIndex, s.parcels[k])], saved := s.parcels[k])])
      else s.(c := c')
    case Crash(i) =>
      if i < |s.servers| then
        s.(c := c', servers := s.servers[i := Started(s.servers[i].saved, c'.nodes[i].snapIndex)])
      else s
    case _ => s.(c := c')
  }

  lemma InstallsGrow(c: Cluster, e: Event)
    requires Wf(c)
    ensures Step(c, e).sn.installs == c.sn.installs
      + if e.SendSnapshot? && Alive(c, e.i) && (e.i, e.peer) in c.sn.threads
        then [InstallCall(e.i, e.peer, InstallArgsOf(c.nodes[e.i]))] else []
  {
    hide WfNodes, WfVotes, WfBeats, WfInstalls, RequestVote, VoteReplied, AppendEntries, AppendReplied;
    hide InstallSnapshot, SnapshotReplied, ApplyLogs, Snapshot, Restart, FirstBeatFault, Sent;
  }

  predicate Running(s: Service, i: nat) { Alive(s.c, i) && i < |s.servers| }

  predicate CanServe(s: Service, i: nat) { Running(s, i) && s.servers[i].channel != [] && s.servers[i].offer.None? }

  /** A snapshot may be taken after a command that was carried out, and shows the state right then. */
  ghost predicate CanShow(p: Progress, h: Handed, image: Option<Image>)
  {
    image.Some? ==> Executes(p, h) && Ordered(image.value.dump) && ImageOf(Handle(p, h).state, image.value)
  }

  /** Its apply thread handles the next message. */
  ghost predicate Handles(s: Service, h: Happening)
  {
    h.Serve? && CanServe(s, h.i) && CanShow(s.servers[h.i].progress, s.servers[h.i].channel[0], h.image)
  }

  /** How far a server is after a message: as far as the message, if it was not there before. */
  function Reached(p: Progress, position: nat, h: Handed): nat
  {
    match h
    case Command(m) => if m.index > p.upTo then Max(position, m.index) else position
    case Load(index, image) => Max(position, index)
  }

  function AfterServing(v: Server, image: Option<Image>): Server
    requires v.channel != []
  {
    var h := v.channel[0];
    v.(progress := Handle(v.progress, h), channel := v.channel[1..],
       offer := if image.Some? && h.Command? then Some(Offer(h.msg.index, image.value)) else None,
       position := Reached(v.progress, v.position, h))
  }

  predicate CanGive(s: Service, i: nat) { Running(s, i) && s.servers[i].offer.Some? }

  /** Raft takes the snapshot unless it has a newer one, or has not committed that far. */
  function GiveStep(s: Service, i: nat): (s': Service)
    requires Fit(s) && CanGive(s, i)
    ensures Fit(s')
  {
    var v, e := s.servers[i], TakeSnapshot(i, s.servers[i].offer.value.index);
    var c' := Step(s.c, e);
    InstallsGrow(s.c, e);
    s.(c := c', servers := s.servers[i := v.(
      offer := None,
      saved := if c'.nodes[i].snapIndex != s.c.nodes[i].snapIndex then Some(v.offer.value.image) else v.saved)])
  }

  /** A happening that is not possible leaves the service as it is. */
  ghost function Next(s: Service, h: Happening): (s': Service)
    requires Fit(s)
    ensures Fit(s')
  {
    match h
    case Raft(e) => RaftStep(s, e)
    case PushCommand(i) =>
      if Running(s, i) && s.servers[i].outbox != [] then
        var v := s.servers[i];
        s.(servers := s.servers[i := v.(channel := v.channel + [Command(v.outbox[0])], outbox := v.outbox[1..])])
      else s
    case PushLoad(i, l) =>
      if Running(s, i) && l < |s.servers[i].loads| then
        var v := s.servers[i];
        s.(servers := s.servers[i := v.(channel := v.channel + [v.loads[l]], loads := v.loads[..l] + v.loads[l + 1..])])
      else s
    case Serve(i, image) =>
      if Handles(s, h) then
        s.(servers := s.servers[i := AfterServing(s.servers[i], image)])
      else s
    case GiveSnapshot(i) => if CanGive(s, i) then GiveStep(s, i) else s
  }

  // ---------- runs ----------

  /** The service of n nodes after a run of happenings. Every sequence is a run. */
  ghost function Play(n: nat, hs: seq<Happening>): (s: Service)
    ensures Fit(s)
  {
    if hs == [] then Opening(n) else Next(Play(n, hs[..|hs| - 1]), hs[|hs| - 1])
  }

  /** What the happening is for Raft. */
  function EventOf(s: Service, h: Happening): seq<Event>
  {
    match h
    case Raft(e) => if e.TakeSnapshot? then [] else [e]
    case GiveSnapshot(i) => if CanGive(s, i) then [TakeSnapshot(i, s.servers[i].offer.value.index)] else []
    case _ => []
  }

  /** The run of Raft inside a run of the service. */
  ghost function Trace(n: nat, hs: seq<Happening>): seq<Event>
  {
    if hs == [] then []
    else
      var before := hs[..|hs| - 1];
      Trace(n, before) + EventOf(Play(n, before), hs[|hs| - 1])
  }

  lemma NextCluster(s: Service, h: Happening)
    requires Fit(s)
    ensures EventOf(s, h) == [] ==> Next(s, h).c == s.c
    ensures EventOf(s, h) != [] ==> |EventOf(s, h)| == 1 && Next(s, h).c == Step(s.c, EventOf(s, h)[0])
  {
    hide Wf, Restored, ApplyLogs;
    if h.Raft? {
      IdleStep(s.c, h.e);
    }
  }

  lemma IdleStep(c: Cluster, e: Event)
    requires Wf(c)
    ensures match e {
      case Apply(i) => !Alive(c, i) ==> Step(c, e) == c
      case SendSnapshot(i, p) => !(Alive(c, i) && (i, p) in c.sn.threads) ==> Step(c, e) == c
      case Crash(i) => i >= |c.nodes| ==> Step(c, e) == c
      case _ => true
    }
  {
    hide Wf;
  }

  lemma Onwards(n: nat, hs: seq<Happening>, h: Happening)
    ensures Play(n, hs + [h]) == Next(Play(n, hs), h) && Trace(n, hs + [h]) == Trace(n, hs) + EventOf(Play(n, hs), h)
  {
    hide Next, EventOf;
    assert (hs + [h])[..|hs|] == hs;
  }

  lemma {:induction false} TraceCluster(n: nat, hs: seq<Happening>)
    ensures Play(n, hs).c == Exec(Init(n), Trace(n, hs))
  {
    hide Fit, Wf, Step, Next, EventOf, Exec, Init, Play, Trace;
    if hs == [] {
      NothingYet(n);
      ExecNone(n);
    } else {
      var before, h := hs[..|hs| - 1], hs[|hs| - 1];
      assert before + [h] == hs;
      TraceCluster(n, before);
      Onwards(n, before, h);
      NextTrace(n, Play(n, before), Trace(n, before), h);
    }
  }

  lemma NextTrace(n: nat, s: Service, events: seq<Event>, h: Happening)
    requires Fit(s) && s.c == Exec(Init(n), events)
    ensures Next(s, h).c == Exec(Init(n), events + EventOf(s, h))
  {
    hide Wf, Step, Next, EventOf, Exec, Init;
    NextCluster(s, h);
    var e := EventOf(s, h);
    if e == [] {
      assert events + e == events;
    } else {
      assert e == [e[0]];
      ExecNext(n, events, e[0]);
    }
  }

  lemma NothingYet(n: nat)
    ensures Play(n, []) == Opening(n) && Trace(n, []) == []
  {
  }

  lemma ExecNone(n: nat)
    ensures Exec(Init(n), []) == Init(n)
  {
  }

  lemma ExecNext(n: nat, events: seq<Event>, e: Event)
    ensures Exec(Init(n), events + [e]) == Step(Exec(Init(n), events), e)
  {
    hide Step, Init;
    assert (events + [e])[..|events|] == events;
  }

  // ---------- runs of Raft alone ----------

  /** Neither servers nor snapshots have a part in it. */
  predicate Silent(e: Event)
  {
    !e.Apply? && !e.TakeSnapshot? && !e.SendSnapshot? && !e.DeliverInstall? && !e.Crash?
  }

  function Only(events: seq<Event>): seq<Happening>
  {
    seq(|events|, k requires 0 <= k < |events| => Raft(events[k]))
  }

  lemma {:induction false} SilentRun(n: nat, events: seq<Event>)
    requires forall k | 0 <= k < |events| :: Silent(events[k])
    ensures Play(n, Only(events)) == Service(Exec(Init(n), events), Fresh(n), [])
    ensures Trace(n, Only(events)) == events
  {
    hide Fit, Wf, Step, Init, Next, EventOf, Play, Trace, Fresh, Silent, Exec;
    if events == [] {
      assert Only(events) == [];
      NothingYet(n);
      ExecNone(n);
    } else {
      var before, e := events[..|events| - 1], events[|events| - 1];
      SilentRun(n, before);
      assert Only(events) == Only(before) + [Raft(e)] && before + [e] == events;
      Onwards(n, Only(before), Raft(e));
      SilentNext(Play(n, Only(before)), e);
      ExecNext(n, before, e);
    }
  }

  lemma SilentNext(s: Service, e: Event)
    requires Fit(s) && Silent(e)
    ensures Next(s, Raft(e)) == s.(c := Step(s.c, e)) && EventOf(s, Raft(e)) == [e]
  {
    hide Wf;
  }
}
