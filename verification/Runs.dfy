/** Runs the code can take to places its comments and documentation do not mention. */
module Runs {
  import opened Base
  import opened Lifecycle
  import opened PipelineProtocol
  import opened RoomSpec
  import opened RoomSystem
  import Payload

  lemma Go(s: Sys, step: Step) returns (t: Sys)
    requires Reachable(s) && Enabled(s, step)
    ensures Reachable(t) && t == Next(s, step)
  {
    t := Next(s, step);
    var init :| Init(init) && Reaches(init, s);
    ReachesNext(init, s, step);
  }

  /** A room just made by the user "u", who asked for the given size and kinds. */
  lemma Begin(size: nat, audioOnly: bool) returns (s: Sys)
    requires 1 <= size <= MAX_SIZE
    ensures Reachable(s) && NobodyYet(s) && s.pending == multiset{Request("u", audioOnly)}
    ensures s.room == NewRoom("r", Payload.JoinPayload("o", "n", "i", "u", size, audioOnly))
  {
    var jp := Payload.JoinPayload("o", "n", "i", "u", size, audioOnly);
    s := Sys(NewRoom("r", jp), [], [], map[], {}, multiset{Request("u", audioOnly)});
    assert s.room == NewRoom("r", jp) && s.pending == multiset{Request(jp.userId, jp.audioOnly)};
    assert Init(s);
    ReachesItself(s);
  }

  ghost predicate NobodyYet(s: Sys) {
    s.peers == [] && s.slices == [] && s.ids == {} && s.index == map[]
  }

  // ---- one user with one audio track

  /** A room of the user "u" alone that still needs `missing` tracks, nothing stopped. */
  ghost predicate Alone(r: Room, missing: nat) {
    r.connectedIndex == map["u" := true]
    && r.neededTracks == r.inTracksReadyCount + missing
    && !r.deleted && !r.started && r.abortedCh == 0 && r.graceful == NotLaunched
    && (missing > 0 ==> r.readyCh == 0 && !r.ready)
  }

  /** Her only peer server, open, with one slice of id "t" at the given place. */
  ghost predicate OneSlice(s: Sys, pc: Pc) {
    |s.slices| == 1 && s.slices[0].pc == pc && s.slices[0].peer == 0 && s.slices[0].id == "t"
    && |s.peers| == 1 && s.peers[0].userId == "u" && !s.peers[0].closed
    && !s.peers[0].disconnecting && s.peers[0].watching && s.peers[0].doneCh == 0
  }

  lemma AudioArrives(s: Sys) returns (t: Sys)
    requires Reachable(s) && NobodyYet(s) && CanWrite(s.room)
    requires s.room.connectedIndex == map["u" := true] && s.pending == multiset{Request("u", true)}
    ensures Reachable(t) && t.room == ConnectPeerServer(s.room, "u", 0) && OneSlice(t, InCheck)
  {
    t := Go(s, NewPeer("u", true));
    t := Go(t, TrackArrives(0, Audio, "t"));
  }

  lemma TrackCounted(s: Sys, missing: nat) returns (t: Sys)
    requires missing > 0
    requires Reachable(s) && Alone(s.room, missing) && OneSlice(s, InCheck) && CanWrite(s.room)
    ensures Reachable(t) && Alone(t.room, missing - 1) && OneSlice(t, Create)
    ensures missing == 1 ==> t.room.ready && t.room.readyCh > 0
    ensures t.room.abort == if missing == 1 && s.room.abort == Armed then Cancelled else s.room.abort
  {
    t := Go(s, Advance(0, false));
    t := Go(t, Advance(0, false));
  }

  lemma UserLeaves(s: Sys, pc: Pc) returns (t: Sys)
    requires Reachable(s) && OneSlice(s, pc) && CanWrite(s.room)
    ensures Reachable(t) && t.room == DisconnectUser(s.room, "u") && t.slices == s.slices && t.index == s.index
    ensures |t.peers| == 1 && !t.peers[0].disconnecting && t.peers[0].watching && t.peers[0].doneCh > 0
  {
    t := Go(s, Close(0));
    t := Go(t, Disconnect(0));
  }

  /** The timer fires, then the only track needed makes the room ready, then abortCountdown
      looks: it keeps the read lock, for ever. */
  lemma LockLeakHappens() returns (s: Sys)
    ensures Reachable(s) && s.room.abort == LockLeaked
  {
    s := Begin(1, true);
    s := Go(s, AbortExpires);
    s := AudioArrives(s);
    s := TrackCounted(s, 1);
    s := LookAtReadyRoom(s);
  }

  lemma LookAtReadyRoom(s: Sys) returns (t: Sys)
    requires Reachable(s) && s.room.abort == Expired && s.room.ready
    ensures Reachable(t) && t.room.abort == LockLeaked
  {
    t := Go(s, AbortChecks);
  }

  lemma NothingLeft(s: Sys)
    requires |s.slices| == 1 && s.slices[0].pc == Waiting && |s.peers| == 1
    requires s.room.readyCh == 0 && s.room.abortedCh == 0
    requires !s.peers[0].disconnecting && !s.peers[0].watching
    requires s.room.abort == Cancelled && s.room.graceful == NotLaunched
    ensures AtRest(s)
  {
  }

  lemma LastOneLeaves(r: Room)
    requires Alone(r, 1) && r.abort == Armed
    ensures var t := DisconnectUser(r, "u");
            t.deleted && t.abort == Cancelled && t.readyCh == 0 && t.abortedCh == 0 && t.graceful == NotLaunched
  {
  }

  /** A room deleted because its only user left: nothing tells the slice that waits for
      readiness, which stays in the index with no step left. */
  lemma WaitingSliceCanBeForgotten() returns (s: Sys)
    ensures Reachable(s) && s.room.deleted && AtRest(s)
    ensures |s.slices| == 1 && s.slices[0].pc == Waiting && "t" in s.index
  {
    s := Begin(2, true);
    s := AudioArrives(s);
    s := TrackCounted(s, 2);
    s := SliceWaits(s);
    LastOneLeaves(s.room);
    s := UserLeaves(s, Waiting);
    s := WatcherLeaves(s);
    NothingLeft(s);
  }

  lemma WatcherLeaves(s: Sys) returns (t: Sys)
    requires Reachable(s) && |s.peers| == 1
    requires s.peers[0].watching && s.peers[0].doneCh > 0 && !s.peers[0].disconnecting
    ensures Reachable(t) && t.room == s.room && t.slices == s.slices && t.index == s.index
    ensures |t.peers| == 1 && !t.peers[0].watching && !t.peers[0].disconnecting
  {
    t := Go(s, Watch(0, true));
  }

  lemma SliceWaits(s: Sys) returns (t: Sys)
    requires Reachable(s) && OneSlice(s, Create)
    ensures Reachable(t) && t.room == s.room && OneSlice(t, Waiting) && "t" in t.index
  {
    t := Go(s, Advance(0, false));
  }

  // ---- an old peer server closed again after its user came back

  ghost predicate OpenPeer(peer: Peer, user: UserId) {
    peer.userId == user && !peer.closed && !peer.disconnecting && peer.doneCh == 0
  }

  lemma CloseAgain(s: Sys, p: nat) returns (t: Sys)
    requires Reachable(s) && p < |s.peers| && !s.peers[p].disconnecting && CanWrite(s.room)
    ensures Reachable(t) && t.room == DisconnectUser(s.room, s.peers[p].userId) && t.pending == s.pending
    ensures |t.peers| == |s.peers| && t.peers[p].userId == s.peers[p].userId && !t.peers[p].disconnecting
    ensures forall q :: 0 <= q < |s.peers| && q != p ==> t.peers[q] == s.peers[q]
  {
    t := Go(s, Close(p));
    t := Go(t, Disconnect(p));
  }

  ghost predicate TwoMembers(r: Room, u: bool) {
    r.connectedIndex == map["u" := u, "w" := true] && r.abort == Armed && !r.deleted && "u" in r.joinedCountIndex
  }

  lemma OneOfTwoLeaves(r: Room)
    requires TwoMembers(r, true)
    ensures TwoMembers(DisconnectUser(r, "u"), false)
    ensures "u" !in DisconnectUser(r, "u").peerServerIndex
  {
    var connected := r.connectedIndex["u" := false];
    var t := r.(peerServerIndex := r.peerServerIndex - {"u"}, connectedIndex := connected, log := r.log + [Left("u")]);
    assert "w" in ConnectedUsers(t);
    assert connected == map["u" := false, "w" := true];
  }

  lemma OneOfTwoReturns(r: Room)
    requires TwoMembers(r, false)
    ensures TwoMembers(Join(r, "u").0, true) && IsAccepted(Join(r, "u").1)
  {
    assert r.connectedIndex["u" := true] == map["u" := true, "w" := true];
  }

  lemma TwoMeet() returns (s: Sys)
    ensures Reachable(s) && TwoMembers(s.room, true) && |s.peers| == 1 && OpenPeer(s.peers[0], "u")
  {
    s := Begin(2, true);
    s := Go(s, JoinUser("w", true));
    s := Go(s, NewPeer("u", true));
  }

  lemma ComesBack(s: Sys) returns (t: Sys)
    requires Reachable(s) && TwoMembers(s.room, false) && |s.peers| == 1
    ensures Reachable(t) && TwoMembers(t.room, true)
    ensures |t.peers| == 2 && t.peers[0] == s.peers[0] && OpenPeer(t.peers[1], "u")
  {
    OneOfTwoReturns(s.room);
    t := Go(s, JoinUser("u", true));
    t := Go(t, NewPeer("u", true));
  }

  /** "u" and "w" in a room; the connection of "u" ends and she comes back; when her old peer
      server is closed once more, she is disconnected and her new one, open, is indexed no
      longer. */
  lemma StaleCloseHappens() returns (s: Sys)
    ensures Reachable(s) && |s.peers| == 2 && OpenPeer(s.peers[1], "u")
    ensures !s.room.deleted && !IsConnected(s.room, "u") && "u" !in s.room.peerServerIndex
  {
    s := TwoMeet();
    OneOfTwoLeaves(s.room);
    s := CloseAgain(s, 0);
    s := ComesBack(s);
    OneOfTwoLeaves(s.room);
    s := CloseAgain(s, 0);
  }

  // ---- two connections with one count of joins

  lemma JoinsAgain(s: Sys) returns (t: Sys)
    requires Reachable(s) && TwoMembers(s.room, false)
    ensures Reachable(t) && TwoMembers(t.room, true) && t.peers == s.peers
    ensures t.pending == s.pending + multiset{Request("u", true)}
  {
    OneOfTwoReturns(s.room);
    t := Go(s, JoinUser("u", true));
  }

  lemma LeavesAgain(s: Sys) returns (t: Sys)
    requires Reachable(s) && TwoMembers(s.room, true)
    requires |s.peers| == 1 && s.peers[0].userId == "u" && !s.peers[0].disconnecting
    ensures Reachable(t) && TwoMembers(t.room, false) && t.pending == s.pending
    ensures |t.peers| == 1 && t.peers[0].userId == "u" && !t.peers[0].disconnecting
  {
    OneOfTwoLeaves(s.room);
    t := CloseAgain(s, 0);
  }

  /** The old peer server of "u" is closed again between her next join and the making of its
      peer server; she joins once more; both of the peer servers now to be made are given the
      same count of joins. */
  lemma SharedCountHappens() returns (s: Sys, t: Sys)
    ensures Reachable(s) && Enabled(s, NewPeer("u", true)) && t == Next(s, NewPeer("u", true))
    ensures Enabled(t, NewPeer("u", true)) && JoinedCount(t.room, "u") == JoinedCount(s.room, "u")
  {
    s := TwoMeet();
    s := LeavesAgain(s);
    s := JoinsAgain(s);
    s := LeavesAgain(s);
    s := JoinsAgain(s);
    t := Go(s, NewPeer("u", true));
  }

  // ---- a room of two with audio and video

  /** Of the four tracks the room needs, n have come and have been counted. */
  ghost predicate Gathered(s: Sys, n: nat) {
    s.room.size == 2 && s.room.neededTracks == 4 && s.room.inTracksReadyCount == n
    && s.room.ready == (n == 4) && s.room.readyCh == One(n == 4) && CanWrite(s.room)
    && |s.peers| == 2 && |s.slices| == n
  }

  lemma OneMoreTrack(s: Sys, n: nat, p: nat, kind: Kind, id: TrackId) returns (t: Sys)
    requires Reachable(s) && Gathered(s, n) && n < 4
    requires p < 2 && kind !in s.peers[p].tracks && id !in s.ids
    ensures Reachable(t) && Gathered(t, n + 1) && t.ids == s.ids + {id}
    ensures t.peers == s.peers[p := s.peers[p].(tracks := s.peers[p].tracks[kind := n])]
  {
    t := Go(s, TrackArrives(p, kind, id));
    t := LastIsCounted(t, n);
  }

  lemma LastIsCounted(s: Sys, n: nat) returns (t: Sys)
    requires Reachable(s) && |s.slices| == n + 1 && s.slices[n].pc == InCheck && s.slices[n].peer < |s.peers|
    requires CanWrite(s.room) && !AlreadyReady(s.room)
    ensures Reachable(t) && t.room == CountInTrack(s.room) && |t.slices| == n + 1
    ensures t.ids == s.ids && t.peers == s.peers
  {
    t := Go(s, Advance(n, false));
    t := Go(t, Advance(n, false));
    assert s.peers[s.slices[n].peer := s.peers[s.slices[n].peer]] == s.peers;
  }

  lemma VideoRoomJoined() returns (s: Sys)
    ensures Reachable(s) && NobodyYet(s) && "u" in s.room.connectedIndex && "w" in s.room.connectedIndex
    ensures s.pending == multiset{Request("u", false), Request("w", false)} && CanWrite(s.room)
    ensures s.room.size == 2 && s.room.neededTracks == 4 && s.room.inTracksReadyCount == 0
    ensures !s.room.ready && s.room.readyCh == 0
  {
    s := Begin(2, false);
    s := Go(s, JoinUser("w", false));
  }

  lemma VideoRoomMade() returns (s: Sys)
    ensures Reachable(s) && Gathered(s, 0) && s.ids == {} && s.peers[0].tracks == s.peers[1].tracks == map[]
  {
    s := VideoRoomJoined();
    s := Go(s, NewPeer("u", false));
    s := Go(s, NewPeer("w", false));
  }

  lemma HalfOfFour() returns (s: Sys)
    ensures Reachable(s) && Gathered(s, 2) && s.ids == {"a", "b"} && s.peers[1].tracks == map[]
  {
    s := VideoRoomMade();
    s := OneMoreTrack(s, 0, 0, Audio, "a");
    s := OneMoreTrack(s, 1, 0, Video, "b");
  }

  /** With audio and video of "u" alone the room is not ready; it is with those of "w" too. */
  lemma VideoRoomNeedsFour() returns (half: Sys, full: Sys)
    ensures Reachable(half) && |half.slices| == 2 && !half.room.ready && half.room.readyCh == 0
    ensures Reachable(full) && |full.slices| == 4 && full.room.ready && full.room.readyCh == 1
  {
    half := HalfOfFour();
    full := OneMoreTrack(half, 2, 1, Audio, "c");
    full := OneMoreTrack(full, 3, 1, Video, "d");
  }

  // ---- two users, one of whom wants video but brings audio only

  /** An audio-only room of "u", who brought audio, and "w", who wants video and brought
      audio: their slices are at the given places. */
  ghost predicate TwoUsers(s: Sys, pcU: Pc, pcW: Pc) {
    |s.peers| == 2 && |s.slices| == 2
    && s.slices[0] == Slice("t", 0, Audio, pcU, s.slices[0].counted, 0)
    && s.slices[1] == Slice("v", 1, Audio, pcW, s.slices[1].counted, 0)
    && OpenPeer(s.peers[0], "u") && OpenPeer(s.peers[1], "w")
    && s.peers[0].pipe == NewPipe(true) && s.peers[1].pipe == NewPipe(false)
    && s.peers[1].tracks == map[Audio := 1]
  }

  ghost predicate Gathering(r: Room, count: nat) {
    r.connectedIndex == map["u" := true, "w" := true] && r.size == 2 && r.neededTracks == 2
    && r.inTracksReadyCount == count && r.pipelineStartCount == 0
    && r.readyCh == (if count == 2 then 1 else 0) && r.ready == (count == 2)
    && !r.started && !r.deleted && r.abortedCh == 0 && r.graceful == NotLaunched
  }

  lemma BothJoin() returns (s: Sys)
    ensures Reachable(s) && NobodyYet(s) && s.pending == multiset{Request("u", true), Request("w", false)}
    ensures Gathering(s.room, 0) && s.room.abort == Armed
  {
    s := Begin(2, true);
    s := Go(s, JoinUser("w", false));
  }

  lemma BothConnect(s: Sys) returns (t: Sys)
    requires Reachable(s) && NobodyYet(s) && s.pending == multiset{Request("u", true), Request("w", false)}
    requires Gathering(s.room, 0) && s.room.abort == Armed
    ensures Reachable(t) && Gathering(t.room, 0) && t.room.abort == Armed
    ensures |t.peers| == 2 && t.slices == [] && t.ids == {} && t.index == map[]
    ensures t.peers[0] == Peer("u", NewPipe(true), map[], false, 0, false, true)
    ensures t.peers[1] == Peer("w", NewPipe(false), map[], false, 0, false, true)
  {
    t := Go(s, NewPeer("u", true));
    t := Go(t, NewPeer("w", false));
  }

  lemma BothBringAudio() returns (s: Sys)
    ensures Reachable(s) && Gathering(s.room, 0) && s.room.abort == Armed && TwoUsers(s, InCheck, InCheck)
    ensures s.index == map[]
  {
    s := BothJoin();
    s := BothConnect(s);
    s := Go(s, TrackArrives(0, Audio, "t"));
    s := Go(s, TrackArrives(1, Audio, "v"));
  }

  lemma GatheringCount(r: Room, count: nat)
    requires Gathering(r, count) && count < 2
    ensures Gathering(CountInTrack(r), count + 1) && !AlreadyReady(r)
    ensures CountInTrack(r).abort == if count == 1 && r.abort == Armed then Cancelled else r.abort
  {
  }

  lemma CountedU(s: Sys, count: nat) returns (t: Sys)
    requires Reachable(s) && TwoUsers(s, InCheck, InCheck) && Gathering(s.room, count) && CanWrite(s.room) && count < 2
    ensures Reachable(t) && t.room == CountInTrack(s.room) && Gathering(t.room, count + 1)
    ensures TwoUsers(t, Create, InCheck)
  {
    GatheringCount(s.room, count);
    t := Go(s, Advance(0, false));
    t := Go(t, Advance(0, false));
  }

  lemma CountedW(s: Sys, pcU: Pc, count: nat) returns (t: Sys)
    requires Reachable(s) && TwoUsers(s, pcU, InCheck) && Gathering(s.room, count) && CanWrite(s.room) && count < 2
    ensures Reachable(t) && t.room == CountInTrack(s.room) && Gathering(t.room, count + 1)
    ensures TwoUsers(t, pcU, Create)
  {
    GatheringCount(s.room, count);
    t := Go(s, Advance(1, false));
    t := Go(t, Advance(1, false));
  }

  lemma ReadyRoomStays(r: Room)
    requires Gathering(r, 2) && r.abort == Cancelled
    ensures var t := DisconnectUser(DisconnectUser(r, "u"), "w"); Lingers(t) && ConnectedUsers(t) == {}
    ensures CanWrite(DisconnectUser(r, "u"))
  {
  }

  lemma BothLeave(s: Sys) returns (t: Sys)
    requires Reachable(s) && TwoUsers(s, Create, Create) && Gathering(s.room, 2) && s.room.abort == Cancelled
    ensures Reachable(t) && Lingers(t.room) && ConnectedUsers(t.room) == {}
  {
    ReadyRoomStays(s.room);
    t := CloseAgain(s, 0);
    t := CloseAgain(t, 1);
  }

  lemma LingeringForever(s: Sys)
    requires Reachable(s) && Lingers(s.room)
    ensures !TimersCanDelete(s)
  {
    ReachableHasInv(s);
    TimersDeleteIff(s);
  }

  /** Both tracks are there, so the room is ready, but only one pipeline will ever start, too
      few for the room to start; when both users leave, it stays, empty and with no timer
      left. */
  lemma EmptyRoomCanLinger() returns (s: Sys)
    ensures Reachable(s) && Lingers(s.room) && ConnectedUsers(s.room) == {} && !TimersCanDelete(s)
  {
    s := BothBringAudio();
    s := CountedU(s, 0);
    s := CountedW(s, Create, 1);
    s := BothLeave(s);
    LingeringForever(s);
  }

  // ---- what an ended room leaves behind

  /** While "w" brings no video, his pipeline does not start and his slice goes no further;
      the slice of "u" has given up waiting. */
  ghost predicate LeftBehind(s: Sys) {
    |s.slices| == 2 && |s.peers| == 2
    && s.slices[0].pc == Aborted && s.slices[0].id == "t"
    && s.slices[1].pc == AwaitStart && s.slices[1].peer == 1 && s.slices[1].id == "v"
    && s.peers[1].pipe.startedCh == 0
  }

  lemma LeftBehindStays(s: Sys, step: Step, t: Sys)
    requires LeftBehind(s) && Follows(s, step, t) && Internal(step)
    ensures LeftBehind(t)
  {
    NeitherMoves(s);
  }

  lemma NeitherMoves(s: Sys)
    requires LeftBehind(s)
    ensures forall k, alt :: !Enabled(s, Advance(k, alt))
  {
  }

  lemma {:induction false} LeftBehindAlong(states: seq<Sys>, steps: seq<Step>, n: nat)
    requires InternalPath(states, steps) && n < |states| && LeftBehind(states[0])
    ensures LeftBehind(states[n])
  {
    if n > 0 {
      LeftBehindAlong(states, steps, n - 1);
      LeftBehindStays(states[n - 1], steps[n - 1], states[n]);
    }
  }

  /** The abort is decided before the second track is counted; that track makes the room
      ready all the same; one slice sees readiness, the other the abort. */
  lemma ReadyWhileAborting() returns (s: Sys)
    ensures Reachable(s) && TwoUsers(s, Waiting, Create) && Gathering(s.room, 2) && s.room.abort == Decided
  {
    s := BothBringAudio();
    s := CountedU(s, 0);
    s := AbortDecided(s);
    s := Go(s, Advance(0, false));
    s := CountedW(s, Waiting, 1);
  }

  lemma AbortDecided(s: Sys) returns (t: Sys)
    requires Reachable(s) && TwoUsers(s, Create, InCheck) && Gathering(s.room, 1) && s.room.abort == Armed
    ensures Reachable(t) && TwoUsers(t, Create, InCheck) && Gathering(t.room, 1) && t.room.abort == Decided
  {
    t := Go(s, AbortExpires);
    t := Go(t, AbortChecks);
  }

  lemma OneGoesOn(s: Sys) returns (t: Sys)
    requires Reachable(s) && TwoUsers(s, Waiting, Create) && Gathering(s.room, 2) && s.room.abort == Decided
    ensures Reachable(t) && TwoUsers(t, Waiting, OutCount) && t.room == s.room
  {
    t := Go(s, Advance(1, false));
    t := Go(t, Advance(1, false));
  }

  lemma OnePipelineNeverStarts(s: Sys) returns (t: Sys)
    requires Reachable(s) && TwoUsers(s, Waiting, Create) && Gathering(s.room, 2) && s.room.abort == Decided
    ensures Reachable(t) && t.room.abort == Decided && |t.slices| == 2 && |t.peers| == 2
    ensures t.slices[0].pc == Waiting && t.slices[0].id == "t" && t.slices[0].peer == 0
    ensures t.slices[1].pc == AwaitStart && t.slices[1].peer == 1 && t.slices[1].id == "v"
    ensures t.peers[1].pipe.startedCh == 0
  {
    t := OneGoesOn(s);
    t := Go(t, Advance(1, false));
    t := Go(t, Advance(1, false));
  }

  /** A room that was aborted and has come to rest keeps two slices in its mixer: one whose
      pipeline never started, still counted, and one that gave up waiting. */
  lemma EndedRoomKeepsSlices() returns (s: Sys)
    ensures Reachable(s) && Ended(s.room) && CanWrite(s.room) && AtRest(s)
    ensures |s.slices| == 2 && s.slices[0].pc == Aborted && s.slices[1].pc == AwaitStart
    ensures s.slices[0].id in s.index && s.slices[1].id in s.index && s.room.outTracksReadyCount == 1
  {
    s := ReadyWhileAborting();
    s := OnePipelineNeverStarts(s);
    s := AbortSeen(s);
    s := RestOf(s);
    LeftAtRest(s);
  }

  lemma AbortSeen(s: Sys) returns (t: Sys)
    requires Reachable(s) && s.room.abort == Decided && |s.slices| == 2 && |s.peers| == 2
    requires s.slices[0].pc == Waiting && s.slices[0].id == "t" && s.slices[0].peer == 0
    requires s.slices[1].pc == AwaitStart && s.slices[1].peer == 1 && s.slices[1].id == "v"
    requires s.peers[1].pipe.startedCh == 0
    ensures Reachable(t) && LeftBehind(t) && Ended(t.room) && CanWrite(t.room)
  {
    t := AbortHappens(s);
    t := Go(t, Advance(0, true));
  }

  lemma AbortHappens(s: Sys) returns (t: Sys)
    requires Reachable(s) && s.room.abort == Decided
    ensures Reachable(t) && t.room.abortedCh == 1 && CanWrite(t.room)
    ensures t.slices == s.slices && t.peers == s.peers
  {
    ReachableChannels(s);
    t := Go(s, AbortStops);
  }

  lemma ReachableChannels(s: Sys)
    requires Reachable(s)
    ensures Channels(s.room)
  {
    ReachableHasInv(s);
  }

  lemma LeftAtRest(s: Sys)
    requires Reachable(s) && LeftBehind(s) && Ended(s.room) && CanWrite(s.room) && AtRest(s)
    ensures s.slices[0].id in s.index && s.slices[1].id in s.index && s.room.outTracksReadyCount == 1
  {
    StillIndexed(s, 0);
    StillIndexed(s, 1);
    CountedStranded(s);
    OneStranded(s.slices);
  }

  lemma StillIndexed(s: Sys, k: nat)
    requires Reachable(s) && k < |s.slices| && IsIndexed(s.slices[k])
    ensures s.slices[k].id in s.index
  {
    ReachableHasInv(s);
  }

  lemma CountedStranded(s: Sys)
    requires Reachable(s) && Ended(s.room) && CanWrite(s.room) && AtRest(s)
    ensures s.room.outTracksReadyCount == Count(s.slices, Stranded)
  {
    ReachableHasInv(s);
    TeardownComplete(s);
  }

  lemma OneStranded(slices: seq<Slice>)
    requires |slices| == 2 && slices[0].pc == Aborted && slices[1].pc == AwaitStart
    ensures Count(slices, Stranded) == 1
  {
    assert slices == [] + [slices[0]] + [slices[1]];
    CountSnoc([], slices[0], Stranded);
    CountSnoc([] + [slices[0]], slices[1], Stranded);
  }

  lemma RestOf(s: Sys) returns (rest: Sys)
    requires Reachable(s) && LeftBehind(s) && Ended(s.room) && CanWrite(s.room)
    ensures Reachable(rest) && LeftBehind(rest) && Ended(rest.room) && CanWrite(rest.room) && AtRest(rest)
  {
    ReachableHasInv(s);
    InternalItself(s);
    rest := RestExists(s, s);
    var states: seq<Sys>, steps: seq<Step> :| InternalPath(states, steps) && states[0] == s && states[|steps|] == rest;
    LeftBehindAlong(states, steps, |steps|);
    EndedToTheEnd(states, steps);
    ReachableAlong(s, states, steps, |steps|);
  }

  lemma InternalItself(s: Sys)
    ensures ReachesInternally(s, s)
  {
    assert InternalPath([s], []);
  }

  lemma {:induction false} ReachableAlong(s: Sys, states: seq<Sys>, steps: seq<Step>, n: nat)
    requires Reachable(s) && Path(states, steps) && states[0] == s && n < |states|
    ensures Reachable(states[n])
  {
    if n > 0 {
      ReachableAlong(s, states, steps, n - 1);
      assert Follows(states[n - 1], steps[n - 1], states[n]);
      var t := Go(states[n - 1], steps[n - 1]);
    }
  }

  // ---- a video slice on an audio-only connection

  /** One audio-only pipeline with an audio and a video slice. */
  ghost predicate AudioAndVideo(s: Sys, pcA: Pc, pcV: Pc) {
    |s.peers| == 1 && |s.slices| == 2
    && s.slices[0].kind == Audio && s.slices[0].pc == pcA && s.slices[0].peer == 0
    && s.slices[1].kind == Video && s.slices[1].pc == pcV && s.slices[1].peer == 0
    && s.peers[0].doneCh == 0 && s.peers[0].pipe.audioOnly
    && CanWrite(s.room)
  }

  lemma BothKindsArrive() returns (s: Sys)
    ensures Reachable(s) && AudioAndVideo(s, InCheck, InCheck) && s.peers[0].pipe == NewPipe(true)
    ensures Alone(s.room, 1) && s.room.size == 1 && s.room.pipelineStartCount == 0 && s.room.abort == Armed
  {
    s := Begin(1, true);
    s := Go(s, NewPeer("u", true));
    s := Go(s, TrackArrives(0, Audio, "t"));
    s := Go(s, TrackArrives(0, Video, "v"));
  }

  /** The room is ready and the pipeline of its only peer server is as given. */
  ghost predicate Running(s: Sys, pcA: Pc, pcV: Pc, p: Pipe) {
    AudioAndVideo(s, pcA, pcV) && s.peers[0].pipe == p && s.room.readyCh > 0 && AlreadyReady(s.room)
  }

  lemma AudioMakesReady(s: Sys) returns (t: Sys)
    requires Reachable(s) && AudioAndVideo(s, InCheck, InCheck) && Alone(s.room, 1)
    ensures Reachable(t) && Running(t, Create, InCheck, s.peers[0].pipe)
  {
    t := Go(s, Advance(0, false));
    t := Go(t, Advance(0, false));
  }

  function Moved(p: Pipe, kind: Kind, pc: Pc, alt: bool): Pipe {
    PipeAfter(p, Slice("", 0, kind, pc, true, 0), alt)
  }

  lemma RoomStaysReady(r: Room, pc: Pc)
    requires r.readyCh > 0 && AlreadyReady(r) && CanWrite(r) && pc != InCount
    ensures var t := RoomAfter(r, pc); t.readyCh > 0 && AlreadyReady(t) && CanWrite(t)
  {
  }

  lemma AudioMoves(s: Sys, pc: Pc, pcV: Pc, p: Pipe, alt: bool) returns (t: Sys)
    requires Reachable(s) && Running(s, pc, pcV, p) && pc != InCount
    requires CanAdvance(s.room, s.peers[0], pc, alt)
    ensures Reachable(t) && Running(t, PcAfter(s.room, pc, alt), pcV, Moved(p, Audio, pc, alt))
  {
    RoomStaysReady(s.room, pc);
    PipeAfterStatic(p, s.slices[0], alt);
    t := Go(s, Advance(0, alt));
  }

  lemma VideoMoves(s: Sys, pcA: Pc, pc: Pc, p: Pipe, alt: bool) returns (t: Sys)
    requires Reachable(s) && Running(s, pcA, pc, p) && pc != InCount
    requires CanAdvance(s.room, s.peers[0], pc, alt)
    ensures Reachable(t) && Running(t, pcA, PcAfter(s.room, pc, alt), Moved(p, Video, pc, alt))
  {
    RoomStaysReady(s.room, pc);
    PipeAfterStatic(p, s.slices[1], alt);
    t := Go(s, Advance(1, alt));
  }

  lemma AudioBinds(s: Sys, p: Pipe) returns (t: Sys)
    requires Reachable(s) && Running(s, Create, InCheck, p)
    ensures Reachable(t) && Running(t, Bind, InCheck, p)
  {
    t := AudioMoves(s, Create, InCheck, p, false);
    t := AudioMoves(t, Waiting, InCheck, p, false);
    t := AudioMoves(t, OutCount, InCheck, p, false);
  }

  lemma AudioPlays(s: Sys) returns (t: Sys)
    requires Reachable(s) && Running(s, Bind, InCheck, NewPipe(true))
    ensures Reachable(t) && Running(t, Select, InCheck, Pipe(true, true, false, 1, 0, [GstStart]))
  {
    var p := Pipe(true, true, false, 1, 0, [GstStart]);
    t := AudioMoves(s, Bind, InCheck, NewPipe(true), false);
    assert Moved(NewPipe(true), Audio, Bind, false) == p;
    t := AudioMoves(t, AwaitStart, InCheck, p, false);
    t := AudioMoves(t, StartCall, InCheck, p, false);
  }

  lemma VideoBinds(s: Sys, p: Pipe) returns (t: Sys)
    requires Reachable(s) && Running(s, Select, InCheck, p)
    ensures Reachable(t) && Running(t, Select, Bind, p)
  {
    t := VideoMoves(s, Select, InCheck, p, false);
    t := VideoMoves(t, Select, Create, p, false);
    t := VideoMoves(t, Select, Waiting, p, false);
    t := VideoMoves(t, Select, OutCount, p, false);
  }

  lemma VideoPlays(s: Sys, p: Pipe) returns (t: Sys)
    requires Reachable(s) && Running(s, Select, Bind, p) && p.audioOnly && p.startedCh > 0
    ensures Reachable(t) && Running(t, Select, Select, p.(videoOutput := true))
  {
    var q := p.(videoOutput := true);
    t := VideoMoves(s, Select, Bind, p, false);
    t := VideoMoves(t, Select, AwaitStart, q, false);
    t := VideoMoves(t, Select, StartCall, q, false);
  }

  lemma AudioReads(s: Sys, p: Pipe) returns (t: Sys)
    requires Reachable(s) && Running(s, Select, Select, p)
    ensures Reachable(t) && Running(t, Reading, Select, p)
  {
    t := Go(s, Read(0));
  }

  lemma AudioStops(s: Sys, p: Pipe) returns (t: Sys)
    requires Reachable(s) && Running(s, Select, Select, p)
    ensures Reachable(t) && Running(t, Removing, Select, StopPipe(p))
  {
    t := AudioReads(s, p);
    t := AudioMoves(t, Reading, Select, p, true);
    t := AudioMoves(t, Closing, Select, p, false);
  }

  lemma VideoPushes(s: Sys, p: Pipe) returns (t: Sys)
    requires Reachable(s) && Running(s, Removing, Select, p)
    ensures Reachable(t) && |t.peers| == 1 && t.peers[0].pipe == PushRTP(p, Video)
  {
    t := Go(s, Read(1));
    t := VideoMoves(t, Removing, Reading, p, false);
  }

  lemma PlaysBoth() returns (s: Sys)
    ensures Reachable(s) && Running(s, Select, Select, Pipe(true, true, true, 1, 0, [GstStart]))
  {
    s := BothKindsArrive();
    s := AudioMakesReady(s);
    s := AudioBinds(s, NewPipe(true));
    s := AudioPlays(s);
    s := VideoBinds(s, Pipe(true, true, false, 1, 0, [GstStart]));
    s := VideoPlays(s, Pipe(true, true, false, 1, 0, [GstStart]));
  }

  lemma BrokenLog()
    ensures var p := Pipe(true, true, true, 1, 0, [GstStart]);
            PushRTP(StopPipe(p), Video) == Pipe(true, true, true, 1, 1, [GstStart, GstStop, Push(Video)])
    ensures StageOf([GstStart, GstStop, Push(Video)]) == Broken
  {
    UnbrokenShape([GstStart, GstStop, Push(Video)]);
  }

  /** A client that asked for audio only sends video as well, on the transceiver every peer
      connection has: the end of its audio stops the pipeline, its video is still pushed. */
  lemma PushAfterStopHappens() returns (s: Sys)
    ensures Reachable(s) && |s.peers| == 1 && s.peers[0].pipe.audioOnly
    ensures StageOf(s.peers[0].pipe.log) == Broken
    ensures s.peers[0].pipe.log == [GstStart, GstStop, Push(Video)]
  {
    var p := Pipe(true, true, true, 1, 0, [GstStart]);
    s := PlaysBoth();
    s := AudioStops(s, p);
    s := VideoPushes(s, StopPipe(p));
    BrokenLog();
  }
}
