/** The server of KvServer.cpp on its skip list: the apply thread, snapshots and the wait channels, proved
    against KvMachine. Coin tosses of the skip list are parameters. */
module KvServers {
  import opened RaftTypes
  import opened Entries
  import opened KvMachine
  import T = Tower
  import S = SkipLists

  type Coins = nat -> seq<bool>

  /** Every write waiting to be acknowledged has taken effect. */
  ghost predicate AllRegistered(channels: map<nat, seq<Op>>, last: map<string, int>)
  {
    forall i, k | i in channels && 0 <= k < |channels[i]| && IsWrite(channels[i][k]) :: Registered(last, channels[i][k])
  }

  lemma MoreRegistered(channels: map<nat, seq<Op>>, s: State, op: Op)
    requires AllRegistered(channels, s.last)
    ensures AllRegistered(channels, Applied(s, op).last)
  {
    LastGrows(s, op);
  }

  lemma WriteRegistered(s: State, op: Op)
    ensures IsWrite(op) ==> Registered(Applied(s, op).last, op)
  {
  }

  lemma NotifiedRegistered(channels: map<nat, seq<Op>>, last: map<string, int>, msg: ApplyMsg)
    requires AllRegistered(channels, last) && (IsWrite(msg.command) ==> Registered(last, msg.command))
    ensures AllRegistered(Notified(channels, msg), last)
  {
  }

  class KvServer {
    const maxRaftStateSize: int
    const skipList: S.SkipList
    var lastRequestIdMap: map<string, int>
    var waitApplyCh: map<nat, seq<Op>>
    var lastSnapShotRaftLogIndex: nat

    ghost predicate Valid()
      reads this, skipList, T.Links(skipList.cells)
    {
      skipList.Valid()
    }

    /** Whoever finds its write on a channel may say that it has taken effect. */
    ghost predicate Acknowledged()
      reads this
    {
      AllRegistered(waitApplyCh, lastRequestIdMap)
    }

    ghost function View(): State
      reads this, skipList
      requires skipList.cells != []
    {
      State(skipList.Contents(), lastRequestIdMap)
    }

    ghost function Working(): Progress
      reads this, skipList
      requires skipList.cells != []
    {
      Progress(View(), lastSnapShotRaftLogIndex)
    }

    /** Start-up: from the snapshot on disk if there is one. The index of the snapshot is not read back. */
    constructor (maxRaftStateSize: int, saved: Option<Image>, coins: Coins)
      ensures Valid() && Acknowledged() && fresh(skipList) && fresh(T.Links(skipList.cells))
      ensures Working() == Begun(saved)
      ensures View() == if saved.Some? then Restored(EMPTY, saved.value) else EMPTY
      ensures lastSnapShotRaftLogIndex == 0 && waitApplyCh == map[] && this.maxRaftStateSize == maxRaftStateSize
      ensures skipList.maxLevel == 6
    {
      this.maxRaftStateSize := maxRaftStateSize;
      skipList := new S.SkipList(6);
      lastRequestIdMap, waitApplyCh, lastSnapShotRaftLogIndex := map[], map[], 0;
      new;
      if saved.Some? {
        LoadFromSnapshotData(saved.value, coins);
      }
    }

    method IsRequestDuplicate(clientId: string, requestId: int) returns (b: bool)
      ensures b == Duplicate(lastRequestIdMap, clientId, requestId)
    {
      if clientId !in lastRequestIdMap {
        return false;
      }
      return requestId <= lastRequestIdMap[clientId];
    }

    method ExecPutOpOnKVDB(op: Op, coins: seq<bool>)
      requires skipList.Valid()
      modifies this`lastRequestIdMap, skipList, T.Links(skipList.cells)
      ensures skipList.Valid() && fresh(T.Links(skipList.cells) - old(T.Links(skipList.cells)))
      ensures View() == State(old(View()).table[op.key := op.value], old(View()).last[op.clientId := op.requestId])
    {
      skipList.InsertSetElement(op.key, op.value, coins);
      lastRequestIdMap := lastRequestIdMap[op.clientId := op.requestId];
    }

    method ExecAppendOpOnKVDB(op: Op, coins: seq<bool>)
      requires skipList.Valid()
      modifies this`lastRequestIdMap, skipList, T.Links(skipList.cells)
      ensures skipList.Valid() && fresh(T.Links(skipList.cells) - old(T.Links(skipList.cells)))
      ensures var s := old(View());
        View() == State(s.table[op.key := if op.key in s.table then s.table[op.key] + op.value else op.value],
                        s.last[op.clientId := op.requestId])
    {
      var found, oldVal := skipList.SearchElement(op.key);
      if found {
        skipList.InsertSetElement(op.key, oldVal + op.value, coins);
      } else {
        skipList.InsertSetElement(op.key, op.value, coins);
      }
      lastRequestIdMap := lastRequestIdMap[op.clientId := op.requestId];
    }

    /** Put and Append may not be repeated, so a duplicate is skipped. */
    method ExecuteOnce(op: Op, coins: seq<bool>)
      requires skipList.Valid()
      modifies this`lastRequestIdMap, skipList, T.Links(skipList.cells)
      ensures skipList.Valid() && fresh(T.Links(skipList.cells) - old(T.Links(skipList.cells)))
      ensures View() == Applied(old(View()), op)
    {
      var seen := IsRequestDuplicate(op.clientId, op.requestId);
      if !seen {
        if op.operation == "Put" {
          ExecPutOpOnKVDB(op, coins);
        } else if op.operation == "Append" {
          ExecAppendOpOnKVDB(op, coins);
        }
      }
    }

    /** One command off the apply channel. `stateIsLarge` says whether the persisted Raft state has reached
        nine tenths of the limit; then a snapshot up to this command goes to Raft. */
    method GetCommandFromRaft(msg: ApplyMsg, stateIsLarge: bool, coins: seq<bool>) returns (snapshot: Option<Image>)
      requires Valid()
      modifies this, skipList, T.Links(skipList.cells)
      ensures Valid() && fresh(T.Links(skipList.cells) - old(T.Links(skipList.cells)))
      ensures Working() == Handle(old(Working()), Command(msg))
      ensures old(Acknowledged()) ==> Acknowledged()
      ensures msg.index <= lastSnapShotRaftLogIndex ==>
        snapshot.None? && View() == old(View()) && waitApplyCh == old(waitApplyCh)
      ensures msg.index > lastSnapShotRaftLogIndex ==>
        && View() == Applied(old(View()), msg.command)
        && waitApplyCh == Notified(old(waitApplyCh), msg)
        && (snapshot.Some? <==> maxRaftStateSize != -1 && stateIsLarge)
        && (snapshot.Some? ==> Ordered(snapshot.value.dump) && ImageOf(View(), snapshot.value))
    {
      hide AllRegistered, Notified, Applied, Registered, ImageOf, Ordered, ToMap;
      hide T.Sorted, T.Separate, T.Below, T.Sized, T.Topped, T.Linked, S.EntriesOf;
      snapshot := None;
      if lastSnapShotRaftLogIndex >= msg.index {
        return;
      }
      var op := msg.command;
      if Acknowledged() {
        MoreRegistered(waitApplyCh, View(), op);
      }
      WriteRegistered(View(), op);
      ExecuteOnce(op, coins);
      if old(Acknowledged()) {
        NotifiedRegistered(waitApplyCh, lastRequestIdMap, msg);
      }
      if maxRaftStateSize != -1 && stateIsLarge {
        var image := MakeSnapshot();
        snapshot := Some(image);
      }
      SendMsgToWaitChan(op, msg.index);
    }

    method MakeSnapshot() returns (image: Image)
      requires skipList.Valid()
      ensures Ordered(image.dump) && ImageOf(View(), image)
    {
      var dump := skipList.DumpFile();
      return Image(dump, lastRequestIdMap);
    }

    method SendMsgToWaitChan(op: Op, index: nat)
      modifies this`waitApplyCh
      ensures waitApplyCh == Notified(old(waitApplyCh), ApplyMsg(index, op))
    {
      if index in waitApplyCh {
        waitApplyCh := waitApplyCh[index := waitApplyCh[index] + [op]];
      }
    }

    /** Keys the list already has keep their value; the last ids are replaced. */
    method LoadFromSnapshotData(image: Image, coins: Coins)
      requires skipList.Valid()
      modifies this`lastRequestIdMap, skipList, T.Links(skipList.cells)
      ensures skipList.Valid() && fresh(T.Links(skipList.cells) - old(T.Links(skipList.cells)))
      ensures View() == Restored(old(View()), image)
    {
      lastRequestIdMap := image.last;
      skipList.LoadFile(image.dump, coins);
    }

    /** An installed snapshot off the apply channel: condInstallSnapshot always agrees. Writes waiting to be
        acknowledged stay registered exactly if the snapshot knows them. */
    method GetSnapshotFromRaft(index: nat, image: Option<Image>, coins: Coins)
      requires Valid()
      modifies this`lastRequestIdMap, this`lastSnapShotRaftLogIndex, skipList, T.Links(skipList.cells)
      ensures Valid() && fresh(T.Links(skipList.cells) - old(T.Links(skipList.cells)))
      ensures Working() == Handle(old(Working()), Load(index, image))
      ensures Acknowledged() <==>
        AllRegistered(waitApplyCh, if image.Some? then image.value.last else old(lastRequestIdMap))
    {
      if image.Some? {
        LoadFromSnapshotData(image.value, coins);
      }
      lastSnapShotRaftLogIndex := index;
    }

    /** The apply loop over what the channel delivers, commands and snapshots. Where the Raft state was large
        after a command, the server hands Raft a snapshot, and it is the state right after that command. */
    method ReadApplyCommands(items: seq<Handed>, stateIsLarge: nat -> bool, coins: nat -> Coins)
      returns (snapshots: seq<Option<Image>>)
      requires Valid()
      modifies this, skipList, T.Links(skipList.cells)
      ensures Valid() && fresh(T.Links(skipList.cells) - old(T.Links(skipList.cells)))
      ensures Working() == HandleAll(old(Working()), items)
      ensures |snapshots| == |items| && forall k | 0 <= k < |items| ::
        SnapshotOk(old(Working()), items, k, maxRaftStateSize, stateIsLarge(k), snapshots[k])
    {
      snapshots := [];
      ghost var from := Working();
      assert Working() == HandleAll(from, items[..0]);
      assert items[..|items|] == items;
      hide SnapshotOk, S.EntriesOf, ToMap, HandleAll, Handle;
      for i := 0 to |items|
        invariant Valid() && fresh(T.Links(skipList.cells) - old(T.Links(skipList.cells)))
        invariant Working() == HandleAll(from, items[..i])
        invariant |snapshots| == i && forall k | 0 <= k < i ::
          SnapshotOk(from, items, k, maxRaftStateSize, stateIsLarge(k), snapshots[k])
      {
        var snapshot := HandleNext(items, i, stateIsLarge(i), coins(i), from);
        snapshots := snapshots + [snapshot];
      }
    }

    method HandleNext(items: seq<Handed>, i: nat, stateIsLarge: bool, coins: Coins, ghost from: Progress)
      returns (snapshot: Option<Image>)
      requires Valid() && i < |items| && Working() == HandleAll(from, items[..i])
      modifies this, skipList, T.Links(skipList.cells)
      ensures Valid() && fresh(T.Links(skipList.cells) - old(T.Links(skipList.cells)))
      ensures Working() == HandleAll(from, items[..i + 1])
      ensures SnapshotOk(from, items, i, maxRaftStateSize, stateIsLarge, snapshot)
    {
      hide Applied, ImageOf, Ordered, AllRegistered, Notified, ToMap, Restored;
      hide T.Sorted, T.Separate, T.Below, T.Sized, T.Topped, T.Linked, S.EntriesOf;
      snapshot := None;
      HandleOne(from, items, i);
      match items[i]
      case Command(msg) => snapshot := GetCommandFromRaft(msg, stateIsLarge, coins(0));
      case Load(index, image) => GetSnapshotFromRaft(index, image, coins);
    }

    /** A request that Raft accepted at this index waits on the channel of the index. */
    method Await(index: nat)
      requires Valid()
      modifies this`waitApplyCh
      ensures Valid() && (old(Acknowledged()) ==> Acknowledged())
      ensures waitApplyCh == if index in old(waitApplyCh) then old(waitApplyCh) else old(waitApplyCh)[index := []]
    {
      if index !in waitApplyCh {
        waitApplyCh := waitApplyCh[index := []];
      }
    }

    /** The answer to a Put or Append at this index: what the channel holds first, or a timeout. An OK means
        that the write, or a later one of the client, has taken effect. There are two ways round that: a Get
        committed here under the same client and id, and a snapshot loaded since that does not know the write. */
    method FinishPutAppend(op: Op, index: nat, timeout: bool) returns (ok: bool)
      requires Valid() && IsWrite(op) && index in waitApplyCh && (waitApplyCh[index] == [] ==> timeout)
      modifies this`waitApplyCh
      ensures Valid() && waitApplyCh == old(waitApplyCh) - {index} && (old(Acknowledged()) ==> Acknowledged())
      ensures ok && old(Acknowledged()) && (timeout || IsWrite(old(waitApplyCh[index])[0])) ==>
        Registered(lastRequestIdMap, op)
      ensures timeout ==> ok == Registered(lastRequestIdMap, op)
      ensures !timeout ==> ok == (old(waitApplyCh[index])[0].clientId == op.clientId
                                  && old(waitApplyCh[index])[0].requestId == op.requestId)
    {
      if timeout {
        ok := IsRequestDuplicate(op.clientId, op.requestId);
      } else {
        var committed := waitApplyCh[index][0];
        ok := committed.clientId == op.clientId && committed.requestId == op.requestId;
      }
      waitApplyCh := waitApplyCh - {index};
    }
  }

  function Notified(channels: map<nat, seq<Op>>, msg: ApplyMsg): map<nat, seq<Op>>
  {
    if msg.index in channels then channels[msg.index := channels[msg.index] + [msg.command]] else channels
  }

  /** Whoever waits at the command's index finds it behind what came before; no channel comes or goes, and no other
      changes. */
  lemma OnlyItsChannel(channels: map<nat, seq<Op>>, msg: ApplyMsg)
    ensures Notified(channels, msg).Keys == channels.Keys
    ensures forall i | i in channels ::
      Notified(channels, msg)[i] == channels[i] + if i == msg.index then [msg.command] else []
  {
    assert forall i | i in channels :: channels[i] + [] == channels[i];
  }

  /** After message k there is a snapshot exactly when it is due, and it is that of the state right then. */
  ghost predicate SnapshotOk(from: Progress, items: seq<Handed>, k: nat, maxSize: int, stateIsLarge: bool,
                             snapshot: Option<Image>)
    requires k < |items|
  {
    && (snapshot.Some? <==> Executes(HandleAll(from, items[..k]), items[k]) && maxSize != -1 && stateIsLarge)
    && (snapshot.Some? ==>
      Ordered(snapshot.value.dump) && ImageOf(HandleAll(from, items[..k + 1]).state, snapshot.value))
  }

  lemma HandleOne(from: Progress, items: seq<Handed>, i: nat)
    requires i < |items|
    ensures HandleAll(from, items[..i + 1]) == Handle(HandleAll(from, items[..i]), items[i])
  {
    assert items[..i + 1][..i] == items[..i];
  }
}
