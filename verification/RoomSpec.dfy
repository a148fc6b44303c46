/** The state of one interaction and what each of its methods does to it
    (sfu/interaction.go). A Go channel that is only ever closed is the number of times it
    was closed: the second close would panic. */
module RoomSpec {
  import opened Base
  import Payload

  const DEFAULT_SIZE: nat := 2
  const MAX_SIZE: nat := 8

  /** The goroutine of abortCountdown: timer running; timer fired, interaction not looked
      at yet; timer stopped before it fired; not ready seen, about to stop; abortedCh
      closed, sleeping; deletion done; ready seen, returned holding the read lock. */
  datatype AbortTimer = Armed | Expired | Cancelled | Decided | AbortSleeping | AbortFinished | LockLeaked

  /** The goroutine of gracefulCountdown, launched by `start`. */
  datatype GracefulTimer = NotLaunched | Counting | GracefulSleeping | GracefulFinished

  datatype JoinOutcome = NewInteraction | Reconnection | ExistingInteraction | Duplicate | Full

  /** History of membership. */
  datatype Event = Accepted(user: UserId) | Refused(user: UserId, why: JoinOutcome) | Left(user: UserId)

  datatype Room = Room(
    id: string,
    size: nat,
    neededTracks: nat,
    connectedIndex: map<UserId, bool>,
    joinedCountIndex: map<UserId, nat>,
    peerServerIndex: map<UserId, nat>,
    ready: bool,
    started: bool,
    deleted: bool,
    pipelineStartCount: nat,
    inTracksReadyCount: nat,
    outTracksReadyCount: int,
    readyCh: nat,
    startedCh: nat,
    abortedCh: nat,
    doneCh: nat,
    abort: AbortTimer,
    graceful: GracefulTimer,
    erased: nat,                  // history: calls of the store's delete
    log: seq<Event>               // history: joins and effective disconnections
  )

  // ---- the methods

  function RoomSize(asked: int): nat {
    if asked < 1 then DEFAULT_SIZE else if asked > MAX_SIZE then MAX_SIZE else asked
  }

  function NewRoom(id: string, jp: Payload.JoinPayload): Room {
    var size := RoomSize(jp.size);
    Room(id, size, if jp.audioOnly then size else size * 2,
         map[jp.userId := true], map[jp.userId := 1], map[],
         false, false, false, 0, 0, 0, 0, 0, 0, 0, Armed, NotLaunched, 0, [Accepted(jp.userId)])
  }

  function WithMembers(r: Room, connected: map<UserId, bool>, joined: map<UserId, nat>, e: Event): Room {
    r.(connectedIndex := connected, joinedCountIndex := joined, log := r.log + [e])
  }

  function Join(r: Room, u: UserId): (Room, JoinOutcome) {
    if u in r.connectedIndex then
      if r.connectedIndex[u] then
        (WithMembers(r, r.connectedIndex, r.joinedCountIndex, Refused(u, Duplicate)), Duplicate)
      else
        (WithMembers(r, r.connectedIndex[u := true], r.joinedCountIndex[u := JoinedCount(r, u) + 1], Accepted(u)),
         Reconnection)
    else if |r.connectedIndex| == r.size then
      (WithMembers(r, r.connectedIndex, r.joinedCountIndex, Refused(u, Full)), Full)
    else
      (WithMembers(r, r.connectedIndex[u := true], r.joinedCountIndex[u := 1], Accepted(u)), ExistingInteraction)
  }

  /** A Go map yields 0 for a missing key. */
  function JoinedCount(r: Room, u: UserId): nat {
    if u in r.joinedCountIndex then r.joinedCountIndex[u] else 0
  }

  function ConnectedUsers(r: Room): set<UserId> {
    set u | u in r.connectedIndex && r.connectedIndex[u]
  }

  function StopAbortTimer(r: Room): Room {
    if r.abort == Armed then r.(abort := Cancelled) else r
  }

  function StartThreshold(r: Room): nat {
    if r.size == 1 then 1 else 2
  }

  function Start(r: Room): Room {
    var r1 := r.(pipelineStartCount := r.pipelineStartCount + 1);
    if !r.started && (r.size == 1 || r1.pipelineStartCount > 1)
    then r1.(started := true, graceful := Counting, startedCh := r.startedCh + 1)
    else r1
  }

  /** First critical section of incInTracksReadyCount. */
  function AlreadyReady(r: Room): bool {
    r.inTracksReadyCount == r.neededTracks
  }

  /** Second critical section of incInTracksReadyCount. */
  function CountInTrack(r: Room): Room {
    var r1 := r.(inTracksReadyCount := r.inTracksReadyCount + 1);
    if r1.inTracksReadyCount == r.neededTracks
    then StopAbortTimer(r1.(ready := true)).(readyCh := r.readyCh + 1)
    else r1
  }

  /** The boolean asks for a signaling pass. */
  function CountOutTrack(r: Room): (Room, bool) {
    var n := r.outTracksReadyCount + 1;
    (r.(outTracksReadyCount := n), n == r.neededTracks || (r.ready && n % 2 == 0))
  }

  function DropOutTrack(r: Room): Room {
    r.(outTracksReadyCount := r.outTracksReadyCount - 1)
  }

  function ConnectPeerServer(r: Room, u: UserId, ps: nat): Room {
    r.(peerServerIndex := r.peerServerIndex[u := ps])
  }

  function UnguardedDelete(r: Room): Room {
    if r.deleted then r else r.(deleted := true, erased := r.erased + 1)
  }

  function DisconnectUser(r: Room, u: UserId): Room {
    if u in r.connectedIndex && r.connectedIndex[u] then
      var r1 := r.(peerServerIndex := r.peerServerIndex - {u},
                   connectedIndex := r.connectedIndex[u := false],
                   log := r.log + [Left(u)]);
      if ConnectedUsers(r1) == {} && !r1.ready && !r1.deleted
      then UnguardedDelete(StopAbortTimer(r1))
      else r1
    else r
  }

  /** `stop` up to its three-second sleep. */
  function StopNow(r: Room, isGraceful: bool): Room {
    if isGraceful
    then r.(doneCh := r.doneCh + 1, ready := false, graceful := GracefulSleeping)
    else r.(abortedCh := r.abortedCh + 1, ready := false, abort := AbortSleeping)
  }

  /** `stop` after its sleep. */
  function StopLater(r: Room, isGraceful: bool): Room {
    var r1 := UnguardedDelete(r);
    if isGraceful then r1.(graceful := GracefulFinished) else r1.(abort := AbortFinished)
  }

  /** The look abortCountdown takes, with the read lock, once its timer has fired. */
  function AbortLook(r: Room): Room {
    if r.ready then r.(abort := LockLeaked) else r.(abort := Decided)
  }

  // ---- the invariant

  function Accepts(log: seq<Event>, u: UserId): nat {
    Count(log, (e: Event) => e == Accepted(u))
  }

  function Leaves(log: seq<Event>, u: UserId): nat {
    Count(log, (e: Event) => e == Left(u))
  }

  predicate IsConnected(r: Room, u: UserId) {
    u in r.connectedIndex && r.connectedIndex[u]
  }

  /** No channel is closed twice, and each exactly when its cause has happened. */
  ghost predicate Channels(r: Room) {
    1 <= r.size <= MAX_SIZE && 1 <= r.neededTracks
    && r.readyCh == One(r.inTracksReadyCount >= r.neededTracks)
    && r.startedCh == One(r.started)
    && (r.started <==> r.pipelineStartCount >= StartThreshold(r))
    && r.abortedCh == One(r.abort in {AbortSleeping, AbortFinished})
    && r.doneCh == One(r.graceful in {GracefulSleeping, GracefulFinished})
    && (r.started <==> r.graceful != NotLaunched)
    && (r.started ==> r.readyCh == 1)
  }

  ghost predicate Timers(r: Room) {
    (r.ready ==> r.readyCh == 1)
    && (r.abort == Armed ==> r.readyCh == 0)
    && (r.abort == LockLeaked ==> r.readyCh == 1)
    && (r.readyCh == 1 && !r.ready ==> r.abortedCh == 1 || r.doneCh == 1)
    && (r.doneCh == 1 ==> !r.ready)
    && (r.abort == AbortFinished || r.graceful == GracefulFinished ==> r.deleted)
    && r.erased == One(r.deleted)
  }

  /** Some goroutine still owes the deletion, or the room is ready and may yet start. */
  ghost predicate DeletionOwned(r: Room) {
    r.deleted
    || r.abort in {Armed, Expired, Decided, AbortSleeping}
    || r.graceful in {Counting, GracefulSleeping}
    || (r.ready && !r.started)
  }

  ghost predicate Stopping(r: Room) {
    r.abort in {Decided, AbortSleeping} || r.graceful == GracefulSleeping
  }

  ghost predicate NotDeserted(r: Room) {
    r.deleted || r.ready || Stopping(r) || ConnectedUsers(r) != {}
  }

  ghost predicate Members(r: Room) {
    r.joinedCountIndex.Keys == r.connectedIndex.Keys
    && 1 <= |r.connectedIndex| <= r.size
    && forall u :: MemberCounts(r, u)
  }

  /** Accepted joins are the joined count, and the effective disconnections plus one if the
      user is connected. */
  ghost predicate MemberCounts(r: Room, u: UserId) {
    Accepts(r.log, u) == JoinedCount(r, u) == Leaves(r.log, u) + One(IsConnected(r, u))
    && (u in r.connectedIndex <==> Accepts(r.log, u) > 0)
  }

  ghost predicate RoomInv(r: Room) {
    Channels(r) && Timers(r) && DeletionOwned(r) && NotDeserted(r) && Members(r)
  }

  // ---- every method keeps it

  lemma LogSnoc(log: seq<Event>, e: Event, u: UserId)
    ensures Accepts(log + [e], u) == Accepts(log, u) + One(e == Accepted(u))
    ensures Leaves(log + [e], u) == Leaves(log, u) + One(e == Left(u))
  {
    CountSnoc(log, e, (x: Event) => x == Accepted(u));
    CountSnoc(log, e, (x: Event) => x == Left(u));
  }

  lemma NewRoomInv(id: string, jp: Payload.JoinPayload)
    ensures RoomInv(NewRoom(id, jp))
  {
    var r := NewRoom(id, jp);
    assert jp.userId in ConnectedUsers(r);
    forall u ensures MemberCounts(r, u) {
      LogSnoc([], Accepted(jp.userId), u);
      assert [] + [Accepted(jp.userId)] == r.log;
    }
  }

  lemma AcceptedMember(r: Room, u: UserId)
    requires Members(r) && !IsConnected(r, u)
    requires u in r.connectedIndex || |r.connectedIndex| < r.size
    ensures Members(WithMembers(r, r.connectedIndex[u := true],
                                r.joinedCountIndex[u := JoinedCount(r, u) + 1], Accepted(u)))
  {
    var t := WithMembers(r, r.connectedIndex[u := true], r.joinedCountIndex[u := JoinedCount(r, u) + 1], Accepted(u));
    forall w ensures MemberCounts(t, w) {
      assert MemberCounts(r, w);
      LogSnoc(r.log, Accepted(u), w);
    }
    assert t.connectedIndex.Keys == r.connectedIndex.Keys + {u};
    assert |t.connectedIndex| == |t.connectedIndex.Keys| && |r.connectedIndex| == |r.connectedIndex.Keys|;
  }

  lemma RefusedMember(r: Room, u: UserId, why: JoinOutcome)
    requires Members(r)
    ensures Members(WithMembers(r, r.connectedIndex, r.joinedCountIndex, Refused(u, why)))
  {
    var t := WithMembers(r, r.connectedIndex, r.joinedCountIndex, Refused(u, why));
    forall w ensures MemberCounts(t, w) {
      assert MemberCounts(r, w);
      LogSnoc(r.log, Refused(u, why), w);
    }
  }

  lemma MoreConnected(r: Room, connected: map<UserId, bool>, joined: map<UserId, nat>, e: Event)
    requires Channels(r) && Timers(r) && DeletionOwned(r) && NotDeserted(r)
    requires forall u :: IsConnected(r, u) ==> u in connected && connected[u]
    ensures var t := WithMembers(r, connected, joined, e);
            Channels(t) && Timers(t) && DeletionOwned(t) && NotDeserted(t)
  {
    var t := WithMembers(r, connected, joined, e);
    if ConnectedUsers(r) != {} {
      var u :| u in ConnectedUsers(r);
      assert IsConnected(r, u);
      assert u in ConnectedUsers(t);
    }
  }

  lemma RefusalInv(r: Room, u: UserId, why: JoinOutcome)
    requires RoomInv(r)
    ensures RoomInv(WithMembers(r, r.connectedIndex, r.joinedCountIndex, Refused(u, why)))
  {
    RefusedMember(r, u, why);
    MoreConnected(r, r.connectedIndex, r.joinedCountIndex, Refused(u, why));
  }

  lemma AcceptanceInv(r: Room, u: UserId)
    requires RoomInv(r) && !IsConnected(r, u)
    requires u in r.connectedIndex || |r.connectedIndex| < r.size
    ensures RoomInv(WithMembers(r, r.connectedIndex[u := true],
                                r.joinedCountIndex[u := JoinedCount(r, u) + 1], Accepted(u)))
  {
    AcceptedMember(r, u);
    MoreConnected(r, r.connectedIndex[u := true], r.joinedCountIndex[u := JoinedCount(r, u) + 1], Accepted(u));
  }

  /** A join either only logs its refusal, or connects the user and counts one more join. */
  lemma JoinIs(r: Room, u: UserId)
    requires Members(r)
    ensures var t := Join(r, u).0;
            t == WithMembers(r, r.connectedIndex, r.joinedCountIndex, Refused(u, Join(r, u).1))
            || (!IsConnected(r, u) && (u in r.connectedIndex || |r.connectedIndex| < r.size)
                && t == WithMembers(r, r.connectedIndex[u := true],
                                    r.joinedCountIndex[u := JoinedCount(r, u) + 1], Accepted(u)))
  {
  }

  lemma JoinInv(r: Room, u: UserId)
    requires RoomInv(r)
    ensures RoomInv(Join(r, u).0)
  {
    JoinIs(r, u);
    if Join(r, u).0 == WithMembers(r, r.connectedIndex, r.joinedCountIndex, Refused(u, Join(r, u).1)) {
      RefusalInv(r, u, Join(r, u).1);
    } else {
      AcceptanceInv(r, u);
    }
  }

  /** "full" is the answer exactly to a new user when as many distinct users as the size
      have ever joined; "duplicate" exactly to a user already connected; "reconnection" to one
      who left, and "existing" to a new one there is room for. */
  lemma JoinAnswers(r: Room, u: UserId)
    requires Members(r)
    ensures var everJoined := set w | w in r.connectedIndex && Accepts(r.log, w) > 0;
            (Join(r, u).1 == Full <==> Accepts(r.log, u) == 0 && |everJoined| == r.size)
            && (Join(r, u).1 == Duplicate <==> Accepts(r.log, u) == Leaves(r.log, u) + 1)
            && (Join(r, u).1 == Reconnection <==> Accepts(r.log, u) == Leaves(r.log, u) > 0)
            && (Join(r, u).1 == ExistingInteraction <==> Accepts(r.log, u) == 0 && |everJoined| < r.size)
    ensures forall w :: Accepts(r.log, w) > 0 ==> w in r.connectedIndex
  {
    assert MemberCounts(r, u);
    forall w | Accepts(r.log, w) > 0 ensures w in r.connectedIndex {
      assert MemberCounts(r, w);
    }
    forall w | w in r.connectedIndex ensures Accepts(r.log, w) > 0 {
      assert MemberCounts(r, w);
    }
    assert (set w | w in r.connectedIndex && Accepts(r.log, w) > 0) == r.connectedIndex.Keys;
    assert |r.connectedIndex| == |r.connectedIndex.Keys|;
  }

  /** Members depends on the maps and the log alone. */
  lemma MembersFrame(r: Room, t: Room)
    requires Members(r) && t.size == r.size
    requires t.connectedIndex == r.connectedIndex && t.joinedCountIndex == r.joinedCountIndex && t.log == r.log
    ensures Members(t) && ConnectedUsers(t) == ConnectedUsers(r)
  {
    forall u ensures MemberCounts(t, u) {
      assert MemberCounts(r, u);
    }
  }

  lemma CountersInv(r: Room)
    requires RoomInv(r)
    ensures RoomInv(CountInTrack(r))
    ensures RoomInv(CountOutTrack(r).0)
    ensures RoomInv(DropOutTrack(r))
  {
    MembersFrame(r, CountInTrack(r));
    MembersFrame(r, CountOutTrack(r).0);
    MembersFrame(r, DropOutTrack(r));
  }

  /** `start` is called by slices that have seen readyCh closed. */
  lemma StartInv(r: Room)
    requires RoomInv(r) && r.readyCh == 1
    ensures RoomInv(Start(r))
  {
    MembersFrame(r, Start(r));
  }

  lemma ConnectInv(r: Room, u: UserId, ps: nat)
    requires RoomInv(r)
    ensures RoomInv(ConnectPeerServer(r, u, ps))
  {
    MembersFrame(r, ConnectPeerServer(r, u, ps));
  }

  lemma DisconnectMembers(r: Room, u: UserId)
    requires Members(r)
    ensures Members(DisconnectUser(r, u))
  {
    if IsConnected(r, u) {
      var t := DisconnectUser(r, u);
      assert t.log == r.log + [Left(u)] && t.connectedIndex == r.connectedIndex[u := false];
      forall w ensures MemberCounts(t, w) {
        assert MemberCounts(r, w);
        LogSnoc(r.log, Left(u), w);
      }
      assert t.connectedIndex.Keys == r.connectedIndex.Keys;
      assert |t.connectedIndex| == |t.connectedIndex.Keys| && |r.connectedIndex| == |r.connectedIndex.Keys|;
    }
  }

  lemma DisconnectInv(r: Room, u: UserId)
    requires RoomInv(r)
    ensures RoomInv(DisconnectUser(r, u))
  {
    DisconnectMembers(r, u);
  }

  lemma AbortTimerInv(r: Room)
    requires RoomInv(r)
    ensures r.abort == Armed ==> RoomInv(r.(abort := Expired))
    ensures r.abort == Expired ==> RoomInv(AbortLook(r))
    ensures r.abort == Decided ==> RoomInv(StopNow(r, false))
    ensures r.abort == AbortSleeping ==> RoomInv(StopLater(r, false))
  {
    MembersFrame(r, r.(abort := Expired));
    MembersFrame(r, AbortLook(r));
    MembersFrame(r, StopNow(r, false));
    MembersFrame(r, StopLater(r, false));
  }

  lemma GracefulTimerInv(r: Room)
    requires RoomInv(r)
    ensures r.graceful == Counting ==> RoomInv(StopNow(r, true))
    ensures r.graceful == GracefulSleeping ==> RoomInv(StopLater(r, true))
  {
    MembersFrame(r, StopNow(r, true));
    MembersFrame(r, StopLater(r, true));
  }

  /** Right after either stop the room is not ready, even if a late track had made it so; so the
      next user to leave it empty has it deleted. */
  lemma StoppedRoomIsDeletable(r: Room, isGraceful: bool, u: UserId)
    requires ConnectedUsers(r) == {u}
    ensures var t := StopNow(r, isGraceful);
            !t.ready && DisconnectUser(t, u).deleted && (!r.deleted ==> DisconnectUser(t, u).abort != Armed)
  {
    var t := StopNow(r, isGraceful);
    var left := t.(peerServerIndex := t.peerServerIndex - {u}, connectedIndex := t.connectedIndex[u := false],
                   log := t.log + [Left(u)]);
    assert u in ConnectedUsers(r);
    assert ConnectedUsers(left) == {} by {
      forall w | w in ConnectedUsers(left) ensures w in ConnectedUsers(r) && w != u {
      }
    }
  }

  /** An abort is decided only before readiness or after the graceful end; in the one
      remaining case, the timer having fired before readiness was counted, the goroutine
      returns without releasing the read lock. */
  lemma AbortLookIff(r: Room)
    requires RoomInv(r) && r.abort == Expired
    ensures AbortLook(r).abort == Decided <==> r.readyCh == 0 || r.doneCh == 1
    ensures AbortLook(r).abort == LockLeaked <==> r.readyCh == 1 && r.doneCh == 0
  {
  }
}
