/** The interaction and its store as objects whose fields the methods update in place, each
    method proved equal to its function in RoomSpec (sfu/interaction.go,
    sfu/interaction_store.go). */
module Interactions {
  import opened Base
  import opened Payload
  import opened RoomSpec

  class Interaction {
    const id: string
    const size: nat
    const neededTracks: nat
    var connectedIndex: map<UserId, bool>
    var joinedCountIndex: map<UserId, nat>
    var peerServerIndex: map<UserId, nat>
    var ready: bool
    var started: bool
    var deleted: bool
    var pipelineStartCount: nat
    var inTracksReadyCount: nat
    var outTracksReadyCount: int
    var readyCh: nat
    var startedCh: nat
    var abortedCh: nat
    var doneCh: nat
    var abort: AbortTimer
    var graceful: GracefulTimer
    ghost var erased: nat
    ghost var log: seq<Event>

    ghost function Abs(): Room
      reads this
    {
      Room(id, size, neededTracks, connectedIndex, joinedCountIndex, peerServerIndex, ready, started, deleted,
           pipelineStartCount, inTracksReadyCount, outTracksReadyCount, readyCh, startedCh, abortedCh, doneCh,
           abort, graceful, erased, log)
    }

    constructor (id: string, jp: JoinPayload)
      ensures Abs() == NewRoom(id, jp)
    {
      var roomSize := jp.size;
      if roomSize < 1 {
        roomSize := DEFAULT_SIZE;
      } else if roomSize > MAX_SIZE {
        roomSize := MAX_SIZE;
      }
      this.id, size := id, roomSize;
      neededTracks := if jp.audioOnly then roomSize else roomSize * 2;
      connectedIndex, joinedCountIndex, peerServerIndex := map[jp.userId := true], map[jp.userId := 1], map[];
      ready, started, deleted := false, false, false;
      pipelineStartCount, inTracksReadyCount, outTracksReadyCount := 0, 0, 0;
      readyCh, startedCh, abortedCh, doneCh := 0, 0, 0, 0;
      abort, graceful := Armed, NotLaunched;
      erased, log := 0, [Accepted(jp.userId)];
    }

    method JoinUser(userId: UserId) returns (outcome: JoinOutcome)
      modifies this
      ensures (Abs(), outcome) == Join(old(Abs()), userId)
    {
      if userId in connectedIndex {
        if connectedIndex[userId] {
          outcome := Duplicate;
          log := log + [Refused(userId, Duplicate)];
        } else {
          var count := if userId in joinedCountIndex then joinedCountIndex[userId] else 0;
          connectedIndex := connectedIndex[userId := true];
          joinedCountIndex := joinedCountIndex[userId := count + 1];
          outcome := Reconnection;
          log := log + [Accepted(userId)];
        }
      } else if |connectedIndex| == size {
        outcome := Full;
        log := log + [Refused(userId, Full)];
      } else {
        connectedIndex := connectedIndex[userId := true];
        joinedCountIndex := joinedCountIndex[userId := 1];
        outcome := ExistingInteraction;
        log := log + [Accepted(userId)];
      }
    }

    /** Counts by walking the map, in any order. */
    method ConnectedUserCount() returns (count: nat)
      ensures count == |ConnectedUsers(Abs())|
    {
      count := 0;
      var left := connectedIndex.Keys;
      ghost var seen: set<UserId> := {};
      while left != {}
        invariant left <= connectedIndex.Keys
        invariant seen == (set u | u in connectedIndex && u !in left && connectedIndex[u])
        invariant count == |seen|
        decreases left
      {
        var u :| u in left;
        left := left - {u};
        if connectedIndex[u] {
          count := count + 1;
          seen := seen + {u};
        }
      }
      assert seen == ConnectedUsers(Abs());
    }

    method StartPipeline()
      modifies this
      ensures Abs() == Start(old(Abs()))
    {
      pipelineStartCount := pipelineStartCount + 1;
      if !started && (size == 1 || pipelineStartCount > 1) {
        started := true;
        graceful := Counting;
        startedCh := startedCh + 1;
      }
    }

    /** First critical section of incInTracksReadyCount: with the answer false, the second
        one follows, later. */
    method LookInTracks() returns (isAlreadyReady: bool)
      ensures isAlreadyReady == AlreadyReady(Abs())
    {
      isAlreadyReady := inTracksReadyCount == neededTracks;
    }

    /** Second critical section of incInTracksReadyCount. */
    method IncInTracks()
      modifies this
      ensures Abs() == CountInTrack(old(Abs()))
    {
      inTracksReadyCount := inTracksReadyCount + 1;
      var isReadyNow := inTracksReadyCount == neededTracks;
      if isReadyNow {
        ready := true;
        CancelAbortTimer();
        readyCh := readyCh + 1;
      }
    }

    /** Both critical sections with nothing in between. */
    method IncInTracksReadyCount()
      modifies this
      ensures Abs() == if AlreadyReady(old(Abs())) then old(Abs()) else CountInTrack(old(Abs()))
    {
      var isAlreadyReady := LookInTracks();
      if !isAlreadyReady {
        IncInTracks();
      }
    }

    method CancelAbortTimer()
      modifies this`abort
      ensures Abs() == StopAbortTimer(old(Abs()))
    {
      if abort == Armed {
        abort := Cancelled;
      }
    }

    method IncOutTracks() returns (signalingNeeded: bool)
      modifies this`outTracksReadyCount
      ensures (Abs(), signalingNeeded) == CountOutTrack(old(Abs()))
    {
      outTracksReadyCount := outTracksReadyCount + 1;
      if outTracksReadyCount == neededTracks {
        return true;
      }
      if ready && outTracksReadyCount % 2 == 0 {
        return true;
      }
      return false;
    }

    method DecOutTracks()
      modifies this`outTracksReadyCount
      ensures Abs() == DropOutTrack(old(Abs()))
    {
      outTracksReadyCount := outTracksReadyCount - 1;
    }

    method Connect(userId: UserId, ps: nat)
      modifies this`peerServerIndex
      ensures Abs() == ConnectPeerServer(old(Abs()), userId, ps)
    {
      peerServerIndex := peerServerIndex[userId := ps];
    }

    /** Deleting twice is harmless; deleting takes the interaction out of its store. */
    method Delete(store: InteractionStore)
      requires this in store.rooms && store.Valid()
      modifies this, store`index
      ensures Abs() == UnguardedDelete(old(Abs()))
      ensures store.Valid()
      ensures store.index == if old(deleted) then old(store.index) else old(store.index) - {id}
    {
      if deleted {
        return;
      }
      deleted := true;
      erased := erased + 1;
      store.Remove(this);
    }

    /** The answer says that a signaling pass is requested: exactly when a connected user leaves
        a room already deleted, for which a pass does nothing. */
    method DisconnectPeer(userId: UserId, store: InteractionStore) returns (signaling: bool)
      requires this in store.rooms && store.Valid()
      modifies this, store`index
      ensures Abs() == DisconnectUser(old(Abs()), userId)
      ensures store.Valid()
      ensures signaling <==> old(deleted) && IsConnected(old(Abs()), userId)
      ensures store.index == if deleted && !old(deleted) then old(store.index) - {id} else old(store.index)
    {
      signaling := false;
      if userId in connectedIndex && connectedIndex[userId] {
        peerServerIndex := peerServerIndex - {userId};
        connectedIndex := connectedIndex[userId := false];
        log := log + [Left(userId)];
        signaling := deleted;
        DeleteIfDeserted(store);
      }
    }

    method DeleteIfDeserted(store: InteractionStore)
      requires this in store.rooms && store.Valid()
      modifies this, store`index
      ensures var r := old(Abs());
              Abs() == if ConnectedUsers(r) == {} && !r.ready && !r.deleted
                       then UnguardedDelete(StopAbortTimer(r)) else r
      ensures store.Valid()
      ensures store.index == if deleted && !old(deleted) then old(store.index) - {id} else old(store.index)
    {
      var count := ConnectedUserCount();
      assert count == 0 <==> ConnectedUsers(Abs()) == {};
      if count == 0 && !ready && !deleted {
        CancelAbortTimer();
        Delete(store);
      }
    }

    /** The read lock is released only when the room is not ready. */
    method LookAtReadiness() returns (aborting: bool)
      requires abort == Expired
      modifies this`abort
      ensures Abs() == AbortLook(old(Abs()))
      ensures aborting <==> abort == Decided
    {
      aborting := !ready;
      abort := if ready then LockLeaked else Decided;
    }

    method StopBeforeSleep(isGraceful: bool)
      modifies this
      ensures Abs() == StopNow(old(Abs()), isGraceful)
    {
      if isGraceful {
        doneCh := doneCh + 1;
        graceful := GracefulSleeping;
      } else {
        abortedCh := abortedCh + 1;
        abort := AbortSleeping;
      }
      ready := false;
    }

    method StopAfterSleep(isGraceful: bool, store: InteractionStore)
      requires this in store.rooms && store.Valid()
      modifies this, store`index
      ensures Abs() == StopLater(old(Abs()), isGraceful)
      ensures store.Valid()
      ensures store.index == if old(deleted) then old(store.index) else old(store.index) - {id}
    {
      Delete(store);
      if isGraceful {
        graceful := GracefulFinished;
      } else {
        abort := AbortFinished;
      }
    }

    /** `stop`, nothing happening during its sleep. */
    method Stop(isGraceful: bool, store: InteractionStore)
      requires this in store.rooms && store.Valid()
      modifies this, store`index
      ensures Abs() == StopLater(StopNow(old(Abs()), isGraceful), isGraceful)
      ensures store.Valid()
      ensures store.index == if old(deleted) then old(store.index) else old(store.index) - {id}
    {
      StopBeforeSleep(isGraceful);
      StopAfterSleep(isGraceful, store);
    }

    /** abortCountdown once its timer has fired: the room is deleted exactly if it was or is not
        ready. */
    method AbortCountdown(store: InteractionStore)
      requires abort == Expired && this in store.rooms && store.Valid()
      modifies this, store`index
      ensures var r := old(Abs());
              Abs() == if r.ready then AbortLook(r) else StopLater(StopNow(AbortLook(r), false), false)
      ensures store.Valid() && (deleted <==> old(deleted) || !old(ready))
    {
      var aborting := LookAtReadiness();
      if aborting {
        Stop(false, store);
      }
    }

    /** gracefulCountdown once its timer has fired. */
    method GracefulCountdown(store: InteractionStore)
      requires this in store.rooms && store.Valid()
      modifies this, store`index
      ensures Abs() == StopLater(StopNow(old(Abs()), true), true)
      ensures store.Valid() && deleted
    {
      Stop(true, store);
    }
  }

  class InteractionStore {
    var index: map<string, Interaction>
    ghost var rooms: set<Interaction>   // every interaction ever made

    /** The index holds every interaction not deleted, under its id, and nothing else. */
    ghost predicate Valid()
      reads this, rooms
    {
      (forall i :: i in rooms && !i.deleted ==> i.id in index && index[i.id] == i)
      && (forall id :: id in index ==> index[id] in rooms && index[id].id == id && !index[id].deleted)
    }

    constructor ()
      ensures Valid() && rooms == {} && index == map[]
    {
      index, rooms := map[], {};
    }

    /** A payload joins the live interaction of its id if there is one, and otherwise makes
        it; no other interaction is touched, none is lost. */
    method JoinRoom(jp: JoinPayload) returns (i: Interaction, outcome: JoinOutcome)
      requires Valid()
      modifies this, rooms
      ensures Valid() && i in rooms && i.id == GenerateId(jp)
      ensures old(GenerateId(jp) in index) ==>
                i == old(index[GenerateId(jp)]) && rooms == old(rooms) && index == old(index)
                && (i.Abs(), outcome) == Join(old(index[GenerateId(jp)].Abs()), jp.userId)
      ensures old(GenerateId(jp) !in index) ==>
                fresh(i) && rooms == old(rooms) + {i} && index == old(index)[GenerateId(jp) := i]
                && (i.Abs(), outcome) == (NewRoom(GenerateId(jp), jp), NewInteraction)
      ensures forall j :: j in old(rooms) && j != i ==> j.Abs() == old(j.Abs())
    {
      var interactionId := GenerateId(jp);
      if interactionId in index {
        i := index[interactionId];
        outcome := i.JoinUser(jp.userId);
      } else {
        i := new Interaction(interactionId, jp);
        index := index[interactionId := i];
        rooms := rooms + {i};
        outcome := NewInteraction;
      }
    }

    method Remove(i: Interaction)
      modifies this`index
      ensures index == old(index) - {i.id}
    {
      index := index - {i.id};
    }
  }
}
