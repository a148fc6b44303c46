/** One interaction with all its goroutines as a transition system: the slice goroutines of
    runMixerSliceFromRemote and mixerSlice.loop, the two countdowns, the peer servers with
    their watcher, their close and their pipeline (sfu/interaction.go, sfu/mixer_slice.go,
    sfu/peer_server.go, gst/pipeline.go). A method that holds a mutex is one step;
    incInTracksReadyCount is two, `close` of a peer server is two, `stop` is two. */
module RoomSystem {
  import opened Base
  import opened PipelineProtocol
  import opened RoomSpec
  import Payload

  /** Where a slice goroutine stands: just before the action of that name. Select and
      Reading are the two places of its main loop; Failed could not create its slice,
      Aborted stopped waiting because of the abort. */
  datatype Pc =
    | InCheck | InCount | Create | Waiting | OutCount | Bind | AwaitStart | StartCall
    | Select | Reading | Closing | Removing | Dec | Exited | Failed | Aborted

  datatype Slice = Slice(id: TrackId, peer: nat, kind: Kind, pc: Pc, counted: bool, doneCh: nat)

  /** A peer server. `disconnecting` is between the two halves of its close; `watching` says
      that its watcher goroutine runs; `tracks` are the slices made from its tracks. */
  datatype Peer = Peer(
    userId: UserId,
    pipe: Pipe,
    tracks: map<Kind, nat>,
    closed: bool,
    doneCh: nat,
    disconnecting: bool,
    watching: bool
  )

  /** What a peer server takes from its join payload. */
  datatype Request = Request(user: UserId, audioOnly: bool)

  datatype Sys = Sys(
    room: Room,
    peers: seq<Peer>,
    slices: seq<Slice>,
    index: map<TrackId, nat>,     // mixer.sliceIndex
    ids: set<TrackId>,            // history: every track id seen
    pending: multiset<Request>     // accepted payloads whose peer server is still to be made
  )

  datatype Step =
    | JoinUser(user: UserId, audioOnly: bool)
    | NewPeer(user: UserId, audioOnly: bool)
    | TrackArrives(p: nat, kind: Kind, id: TrackId)
    | Advance(k: nat, alt: bool)
    | Read(k: nat)
    | AbortExpires
    | AbortChecks
    | AbortStops
    | AbortDeletes
    | GracefulStops
    | GracefulDeletes
    | Watch(p: nat, alt: bool)
    | Close(p: nat)
    | Disconnect(p: nat)

  /** Once the read lock has leaked no writer gets in any more. */
  predicate CanWrite(r: Room) {
    r.abort != LockLeaked
  }

  // ---- one action of a slice goroutine

  /** `alt` chooses among the outcomes of a place that has several: a slice that cannot be
      created, the abort seen while waiting, a failed read. */
  predicate CanAdvance(r: Room, peer: Peer, pc: Pc, alt: bool) {
    match pc
    case InCheck => !alt && CanWrite(r)
    case InCount => !alt && CanWrite(r)
    case Create => true
    case Waiting => if alt then r.abortedCh > 0 else r.readyCh > 0
    case OutCount => !alt && CanWrite(r)
    case Bind => !alt
    case AwaitStart => !alt && peer.pipe.startedCh > 0
    case StartCall => !alt && CanWrite(r)
    case Select => !alt && peer.doneCh > 0
    case Reading => true
    case Closing => !alt
    case Removing => !alt
    case Dec => !alt && CanWrite(r)
    case _ => false
  }

  function PcAfter(r: Room, pc: Pc, alt: bool): Pc {
    match pc
    case InCheck => if AlreadyReady(r) then Create else InCount
    case InCount => Create
    case Create => if alt then Failed else Waiting
    case Waiting => if alt then Aborted else OutCount
    case OutCount => Bind
    case Bind => AwaitStart
    case AwaitStart => StartCall
    case StartCall => Select
    case Select => Closing
    case Reading => if alt then Closing else Select
    case Closing => Removing
    case Removing => Dec
    case Dec => Exited
    case _ => pc
  }

  function RoomAfter(r: Room, pc: Pc): Room {
    match pc
    case InCount => CountInTrack(r)
    case OutCount => CountOutTrack(r).0
    case StartCall => Start(r)
    case Dec => DropOutTrack(r)
    case _ => r
  }

  function PipeAfter(p: Pipe, x: Slice, alt: bool): Pipe {
    match x.pc
    case Bind => BindTrackAutoStart(p, x.kind)
    case Reading => if alt then p else PushRTP(p, x.kind)
    case Closing => StopPipe(p)
    case _ => p
  }

  function SliceAfter(r: Room, x: Slice, alt: bool): Slice {
    x.(pc := PcAfter(r, x.pc, alt),
       counted := x.counted || x.pc == InCount,
       doneCh := if x.pc == Closing then x.doneCh + 1 else x.doneCh)
  }

  function IndexAfter(index: map<TrackId, nat>, x: Slice, k: nat, alt: bool): map<TrackId, nat> {
    if x.pc == Create && !alt then index[x.id := k]
    else if x.pc == Removing then index - {x.id}
    else index
  }

  // ---- all steps

  predicate IsAccepted(outcome: JoinOutcome) {
    outcome != Duplicate && outcome != Full
  }

  function CloseMark(peer: Peer): Peer {
    if peer.closed then peer.(disconnecting := true)
    else peer.(closed := true, doneCh := peer.doneCh + 1, disconnecting := true)
  }

  predicate IsTimer(step: Step) {
    step.AbortExpires? || step.AbortChecks? || step.AbortStops? || step.AbortDeletes?
    || step.GracefulStops? || step.GracefulDeletes?
  }

  predicate TimerReady(r: Room, step: Step) {
    match step
    case AbortExpires => r.abort == Armed
    case AbortChecks => r.abort == Expired
    case AbortStops => r.abort == Decided
    case AbortDeletes => r.abort == AbortSleeping
    case GracefulStops => r.graceful == Counting
    case GracefulDeletes => r.graceful == GracefulSleeping
    case _ => false
  }

  function TimerNext(r: Room, step: Step): Room {
    match step
    case AbortExpires => r.(abort := Expired)
    case AbortChecks => AbortLook(r)
    case AbortStops => StopNow(r, false)
    case AbortDeletes => StopLater(r, false)
    case GracefulStops => StopNow(r, true)
    case GracefulDeletes => StopLater(r, true)
    case _ => r
  }

  ghost predicate Enabled(s: Sys, step: Step) {
    match step
    case JoinUser(_, _) => CanWrite(s.room)
    case NewPeer(user, audioOnly) =>
      CanWrite(s.room) && user in s.room.connectedIndex && Request(user, audioOnly) in s.pending
    case TrackArrives(p, kind, id) =>
      CanWrite(s.room) && p < |s.peers| && kind !in s.peers[p].tracks && id !in s.ids
    case Advance(k, alt) =>
      k < |s.slices| && s.slices[k].peer < |s.peers|
      && CanAdvance(s.room, s.peers[s.slices[k].peer], s.slices[k].pc, alt)
    case Read(k) =>
      k < |s.slices| && s.slices[k].peer < |s.peers| && s.slices[k].pc == Select
      && s.peers[s.slices[k].peer].doneCh == 0
    case Watch(p, alt) =>
      p < |s.peers| && s.peers[p].watching
      && if alt then s.peers[p].doneCh > 0
         else !s.peers[p].disconnecting && (s.room.abortedCh > 0 || s.room.doneCh > 0)
    case Close(p) => p < |s.peers| && !s.peers[p].disconnecting
    case Disconnect(p) => p < |s.peers| && s.peers[p].disconnecting && CanWrite(s.room)
    case _ => TimerReady(s.room, step)
  }

  function Advanced(s: Sys, k: nat, alt: bool): Sys
    requires k < |s.slices| && s.slices[k].peer < |s.peers|
  {
    var x := s.slices[k];
    var peer := s.peers[x.peer];
    Sys(RoomAfter(s.room, x.pc),
        s.peers[x.peer := peer.(pipe := PipeAfter(peer.pipe, x, alt))],
        s.slices[k := SliceAfter(s.room, x, alt)],
        IndexAfter(s.index, x, k, alt),
        s.ids,
        s.pending)
  }

  ghost function Next(s: Sys, step: Step): Sys
    requires Enabled(s, step)
  {
    match step
    case JoinUser(user, audioOnly) =>
      s.(room := Join(s.room, user).0,
         pending := if IsAccepted(Join(s.room, user).1) then s.pending + multiset{Request(user, audioOnly)}
                    else s.pending)
    case NewPeer(user, audioOnly) =>
      s.(room := ConnectPeerServer(s.room, user, |s.peers|),
         peers := s.peers + [Peer(user, NewPipe(audioOnly), map[], false, 0, false, true)],
         pending := s.pending - multiset{Request(user, audioOnly)})
    case TrackArrives(p, kind, id) =>
      s.(peers := s.peers[p := s.peers[p].(tracks := s.peers[p].tracks[kind := |s.slices|])],
         slices := s.slices + [Slice(id, p, kind, InCheck, false, 0)],
         ids := s.ids + {id})
    case Advance(k, alt) => Advanced(s, k, alt)
    case Read(k) => s.(slices := s.slices[k := s.slices[k].(pc := Reading)])
    case Watch(p, alt) =>
      s.(peers := s.peers[p := (if alt then s.peers[p] else CloseMark(s.peers[p])).(watching := false)])
    case Close(p) => s.(peers := s.peers[p := CloseMark(s.peers[p])])
    case Disconnect(p) =>
      s.(room := DisconnectUser(s.room, s.peers[p].userId),
         peers := s.peers[p := s.peers[p].(disconnecting := false)])
    case _ => s.(room := TimerNext(s.room, step))
  }

  ghost predicate Init(s: Sys) {
    (exists id, jp :: s.room == NewRoom(id, jp) && s.pending == multiset{Request(jp.userId, jp.audioOnly)})
    && s.peers == [] && s.slices == [] && s.index == map[] && s.ids == {}
  }

  // ---- the invariant

  function At(pc: Pc): nat {
    match pc
    case InCheck => 0
    case InCount => 1
    case Create => 2
    case Waiting => 3
    case OutCount => 4
    case Bind => 5
    case AwaitStart => 6
    case StartCall => 7
    case Select => 8
    case Reading => 8
    case Closing => 9
    case Removing => 10
    case Dec => 11
    case Exited => 12
    case Failed => 20
    case Aborted => 21
  }

  predicate IsCounted(x: Slice) {
    x.counted
  }

  /** Between the increment and the decrement of outTracksReadyCount. */
  predicate IsOut(x: Slice) {
    5 <= At(x.pc) <= 11
  }

  predicate HasCalledStart(x: Slice) {
    8 <= At(x.pc) <= 12
  }

  predicate IsIndexed(x: Slice) {
    3 <= At(x.pc) <= 10 || x.pc == Aborted
  }

  predicate HasBound(x: Slice) {
    6 <= At(x.pc) <= 12
  }

  predicate HasStopped(x: Slice) {
    10 <= At(x.pc) <= 12
  }

  /** Each counter of the interaction is the number of goroutines in a phase. */
  ghost predicate Counters(s: Sys) {
    s.room.inTracksReadyCount == Count(s.slices, IsCounted)
    && s.room.outTracksReadyCount == Count(s.slices, IsOut)
    && s.room.pipelineStartCount == Count(s.slices, HasCalledStart)
  }

  ghost predicate Shape(s: Sys) {
    (forall k :: 0 <= k < |s.slices| ==> SliceShape(s, s.slices[k], k))
    && (forall p, kind :: 0 <= p < |s.peers| && kind in s.peers[p].tracks ==> TrackShape(s, p, kind))
    && DistinctIds(s.slices)
  }

  ghost predicate DistinctIds(slices: seq<Slice>) {
    forall j, k :: 0 <= j < k < |slices| ==> slices[j].id != slices[k].id
  }

  ghost predicate SliceShape(s: Sys, x: Slice, k: nat) {
    x.peer < |s.peers| && x.kind in s.peers[x.peer].tracks && s.peers[x.peer].tracks[x.kind] == k
    && x.id in s.ids
  }

  ghost predicate TrackShape(s: Sys, p: nat, kind: Kind)
    requires p < |s.peers| && kind in s.peers[p].tracks
  {
    var k := s.peers[p].tracks[kind];
    k < |s.slices| && s.slices[k].peer == p && s.slices[k].kind == kind
  }

  ghost predicate Phase(r: Room, x: Slice) {
    (4 <= At(x.pc) <= 12 ==> r.readyCh == 1)
    && (x.pc == Aborted ==> r.abortedCh == 1)
    && (At(x.pc) <= 1 ==> !x.counted)
    && x.doneCh == One(HasStopped(x))
  }

  ghost predicate Phases(s: Sys) {
    forall k :: 0 <= k < |s.slices| ==> Phase(s.room, s.slices[k])
  }

  /** The mixer's index holds exactly the slices between their insertion and their own
      removal. */
  ghost predicate Indexed(s: Sys) {
    (forall id :: id in s.index ==>
       s.index[id] < |s.slices| && s.slices[s.index[id]].id == id && IsIndexed(s.slices[s.index[id]]))
    && (forall k :: 0 <= k < |s.slices| && IsIndexed(s.slices[k]) ==>
          s.slices[k].id in s.index && s.index[s.slices[k].id] == k)
  }

  /** Whether the slice of that kind, if any, satisfies p. */
  predicate KindIs(peer: Peer, kind: Kind, slices: seq<Slice>, p: Slice -> bool) {
    kind in peer.tracks && peer.tracks[kind] < |slices| && p(slices[peer.tracks[kind]])
  }

  /** An audio-only pipeline that was given a video slice: a peer connection always accepts
      one. */
  predicate Misfit(p: Pipe, videoSeen: bool) {
    p.audioOnly && videoSeen
  }

  /** A pipeline whose slices have bound and stopped as told: outputs set by those that have
      bound, stops counted for those that have stopped, started once when all are bound,
      stopped once when as many as it waits for have stopped; and unless it is a misfit, a
      log that is never broken. */
  ghost predicate PipeState(
      p: Pipe, videoSeen: bool, audioBound: bool, videoBound: bool, audioStopped: bool, videoStopped: bool)
  {
    (p.audioOutput <==> audioBound)
    && (p.videoOutput <==> videoBound)
    && (videoBound || videoStopped ==> videoSeen)
    && p.startedCh == One(AllBound(p))
    && p.stoppedCount == One(audioStopped) + One(videoStopped)
    && (audioStopped || videoStopped ==> p.startedCh == 1)
    && Starts(p.log) == p.startedCh && Stops(p.log) == One(p.stoppedCount >= Buffers(p))
    && (!Misfit(p, videoSeen) ==>
          StageOf(p.log)
          == if p.startedCh == 0 then Idle else if p.stoppedCount >= Buffers(p) then Stopped else Playing)
  }

  ghost predicate PipeGood(peer: Peer, slices: seq<Slice>) {
    PipeState(peer.pipe, Video in peer.tracks,
              KindIs(peer, Audio, slices, HasBound), KindIs(peer, Video, slices, HasBound),
              KindIs(peer, Audio, slices, HasStopped), KindIs(peer, Video, slices, HasStopped))
  }

  ghost predicate Pipes(s: Sys) {
    (forall p :: 0 <= p < |s.peers| ==> PipeGood(s.peers[p], s.slices))
    && (forall k :: 0 <= k < |s.slices| ==> StartSeen(s, s.slices[k]))
  }

  ghost predicate StartSeen(s: Sys, x: Slice) {
    7 <= At(x.pc) <= 12 ==> x.peer < |s.peers| && s.peers[x.peer].pipe.startedCh == 1
  }

  ghost predicate Session(peer: Peer) {
    peer.doneCh == One(peer.closed) && (peer.disconnecting ==> peer.closed) && (!peer.watching ==> peer.closed)
  }

  ghost predicate Sessions(s: Sys) {
    forall p :: 0 <= p < |s.peers| ==> Session(s.peers[p])
  }

  /** The goroutines against the room. */
  ghost predicate SlicesInv(s: Sys) {
    Counters(s) && Shape(s) && Phases(s) && Indexed(s) && Pipes(s) && Sessions(s)
  }

  ghost predicate Inv(s: Sys) {
    RoomInv(s.room) && SlicesInv(s)
  }

  lemma InitInv(s: Sys)
    requires Init(s)
    ensures Inv(s)
  {
    var id, jp :| s.room == NewRoom(id, jp) && s.pending == multiset{Request(jp.userId, jp.audioOnly)};
    NewRoomInv(id, jp);
  }

  // ---- advancing a slice, one part of the invariant at a time

  /** The counters move with the slice. */
  lemma SliceAndInCount(r: Room, peer: Peer, x: Slice, alt: bool)
    requires CanAdvance(r, peer, x.pc, alt) && (At(x.pc) <= 1 ==> !x.counted)
    ensures RoomAfter(r, x.pc).inTracksReadyCount
         == r.inTracksReadyCount + One(IsCounted(SliceAfter(r, x, alt))) - One(IsCounted(x))
  {
    assert RoomAfter(r, x.pc).inTracksReadyCount == r.inTracksReadyCount + One(x.pc == InCount);
  }

  lemma SliceAndOutCount(r: Room, peer: Peer, x: Slice, alt: bool)
    requires CanAdvance(r, peer, x.pc, alt)
    ensures RoomAfter(r, x.pc).outTracksReadyCount
         == r.outTracksReadyCount + One(IsOut(SliceAfter(r, x, alt))) - One(IsOut(x))
  {
  }

  lemma SliceAndStartCount(r: Room, peer: Peer, x: Slice, alt: bool)
    requires CanAdvance(r, peer, x.pc, alt)
    ensures RoomAfter(r, x.pc).pipelineStartCount
         == r.pipelineStartCount + One(HasCalledStart(SliceAfter(r, x, alt))) - One(HasCalledStart(x))
  {
    assert RoomAfter(r, x.pc).pipelineStartCount == r.pipelineStartCount + One(x.pc == StartCall);
    assert HasCalledStart(SliceAfter(r, x, alt)) == (HasCalledStart(x) || x.pc == StartCall);
  }

  lemma SliceAndPhase(r: Room, peer: Peer, x: Slice, alt: bool, t: Room)
    requires CanAdvance(r, peer, x.pc, alt) && Phase(r, x)
    requires r.readyCh <= t.readyCh <= 1 && t.abortedCh == r.abortedCh <= 1
    ensures Phase(t, SliceAfter(r, x, alt))
  {
  }

  lemma RoomAfterChannels(r: Room, pc: Pc)
    ensures RoomAfter(r, pc).readyCh >= r.readyCh && RoomAfter(r, pc).abortedCh == r.abortedCh
  {
  }

  lemma SliceAndIndex(r: Room, peer: Peer, x: Slice, alt: bool, index: map<TrackId, nat>, k: nat)
    requires CanAdvance(r, peer, x.pc, alt)
    ensures var y := SliceAfter(r, x, alt);
            IndexAfter(index, x, k, alt) ==
            if IsIndexed(y) == IsIndexed(x) then index
            else if IsIndexed(y) then index[x.id := k]
            else index - {x.id}
  {
  }

  lemma SliceAndPipe(r: Room, peer: Peer, x: Slice, alt: bool)
    requires CanAdvance(r, peer, x.pc, alt)
    ensures var y := SliceAfter(r, x, alt);
            HasBound(y) == (HasBound(x) || x.pc == Bind)
            && HasStopped(y) == (HasStopped(x) || x.pc == Closing)
            && (x.pc == Bind ==> !HasBound(x))
            && (x.pc == Closing ==> !HasStopped(x))
            && (x.pc == Reading ==> !HasStopped(x))
            && (7 <= At(y.pc) <= 12 ==> 7 <= At(x.pc) <= 12 || (x.pc == AwaitStart && peer.pipe.startedCh > 0))
  {
  }

  lemma BindKeeps(p: Pipe, kind: Kind, vs: bool, ab: bool, vb: bool, asp: bool, vsp: bool)
    requires PipeState(p, vs, ab, vb, asp, vsp) && (kind == Video ==> vs)
    requires !(if kind == Audio then ab else vb)
    ensures PipeState(BindTrackAutoStart(p, kind), vs, ab || kind == Audio, vb || kind == Video, asp, vsp)
  {
    StageOfSnoc(p.log, GstStart);
    CountsSnoc(p.log, GstStart);
  }

  lemma PushKeeps(p: Pipe, kind: Kind, vs: bool, ab: bool, vb: bool, asp: bool, vsp: bool)
    requires PipeState(p, vs, ab, vb, asp, vsp) && (kind == Video ==> vs)
    requires p.startedCh == 1 && !(if kind == Audio then asp else vsp)
    ensures PipeState(PushRTP(p, kind), vs, ab, vb, asp, vsp)
  {
    StageOfSnoc(p.log, Push(kind));
    CountsSnoc(p.log, Push(kind));
  }

  lemma StopKeeps(p: Pipe, kind: Kind, vs: bool, ab: bool, vb: bool, asp: bool, vsp: bool)
    requires PipeState(p, vs, ab, vb, asp, vsp) && (kind == Video ==> vs)
    requires p.startedCh == 1 && !(if kind == Audio then asp else vsp)
    ensures PipeState(StopPipe(p), vs, ab, vb, asp || kind == Audio, vsp || kind == Video)
  {
    StageOfSnoc(p.log, GstStop);
    CountsSnoc(p.log, GstStop);
  }

  lemma PipeAfterKeeps(
      r: Room, peer: Peer, x: Slice, alt: bool, vs: bool, ab: bool, vb: bool, asp: bool, vsp: bool)
    requires CanAdvance(r, peer, x.pc, alt) && PipeState(peer.pipe, vs, ab, vb, asp, vsp)
    requires x.kind == Video ==> vs
    requires HasBound(x) == (if x.kind == Audio then ab else vb)
    requires HasStopped(x) == (if x.kind == Audio then asp else vsp)
    requires 7 <= At(x.pc) <= 12 ==> peer.pipe.startedCh == 1
    ensures var y := SliceAfter(r, x, alt);
            if x.kind == Audio
            then PipeState(PipeAfter(peer.pipe, x, alt), vs, HasBound(y), vb, HasStopped(y), vsp)
            else PipeState(PipeAfter(peer.pipe, x, alt), vs, ab, HasBound(y), asp, HasStopped(y))
  {
    SliceAndPipe(r, peer, x, alt);
    if x.pc == Bind {
      BindKeeps(peer.pipe, x.kind, vs, ab, vb, asp, vsp);
    } else if x.pc == Reading && !alt {
      PushKeeps(peer.pipe, x.kind, vs, ab, vb, asp, vsp);
    } else if x.pc == Closing {
      StopKeeps(peer.pipe, x.kind, vs, ab, vb, asp, vsp);
    }
  }

  lemma PipeAfterStatic(p: Pipe, x: Slice, alt: bool)
    ensures PipeAfter(p, x, alt).audioOnly == p.audioOnly && PipeAfter(p, x, alt).startedCh >= p.startedCh
  {
  }

  lemma AdvanceRoom(s: Sys, k: nat, alt: bool)
    requires RoomInv(s.room) && Phases(s) && Enabled(s, Advance(k, alt))
    ensures RoomInv(Advanced(s, k, alt).room)
  {
    assert Phase(s.room, s.slices[k]);
    CountersInv(s.room);
    if s.slices[k].pc == StartCall {
      StartInv(s.room);
    }
  }

  lemma AdvanceCounters(s: Sys, k: nat, alt: bool)
    requires Counters(s) && Phases(s) && Enabled(s, Advance(k, alt))
    ensures Counters(Advanced(s, k, alt))
  {
    var x := s.slices[k];
    var y := SliceAfter(s.room, x, alt);
    assert Phase(s.room, x);
    SliceAndInCount(s.room, s.peers[x.peer], x, alt);
    SliceAndOutCount(s.room, s.peers[x.peer], x, alt);
    SliceAndStartCount(s.room, s.peers[x.peer], x, alt);
    CountUpdate(s.slices, k, y, IsCounted);
    CountUpdate(s.slices, k, y, IsOut);
    CountUpdate(s.slices, k, y, HasCalledStart);
  }

  /** Shape looks only at parts that never change once set. */
  lemma ShapeFrame(s: Sys, t: Sys)
    requires Shape(s) && t.ids == s.ids && |t.peers| == |s.peers| && |t.slices| == |s.slices|
    requires forall p :: 0 <= p < |s.peers| ==>
               t.peers[p].tracks == s.peers[p].tracks && t.peers[p].pipe.audioOnly == s.peers[p].pipe.audioOnly
    requires forall k :: 0 <= k < |s.slices| ==>
               t.slices[k].id == s.slices[k].id && t.slices[k].peer == s.slices[k].peer
               && t.slices[k].kind == s.slices[k].kind
    ensures Shape(t)
  {
    forall k | 0 <= k < |t.slices| ensures SliceShape(t, t.slices[k], k) {
      assert SliceShape(s, s.slices[k], k);
    }
    forall p, kind | 0 <= p < |t.peers| && kind in t.peers[p].tracks ensures TrackShape(t, p, kind) {
      assert TrackShape(s, p, kind);
    }
  }

  lemma AdvanceShape(s: Sys, k: nat, alt: bool)
    requires Shape(s) && Enabled(s, Advance(k, alt))
    ensures Shape(Advanced(s, k, alt))
  {
    var x := s.slices[k];
    PipeAfterStatic(s.peers[x.peer].pipe, x, alt);
    ShapeFrame(s, Advanced(s, k, alt));
  }

  lemma AdvancePhases(s: Sys, k: nat, alt: bool)
    requires Phases(s) && Channels(s.room) && Enabled(s, Advance(k, alt))
    requires Channels(Advanced(s, k, alt).room)
    ensures Phases(Advanced(s, k, alt))
  {
    var x := s.slices[k];
    var t := Advanced(s, k, alt);
    assert Phase(s.room, x);
    RoomAfterChannels(s.room, x.pc);
    SliceAndPhase(s.room, s.peers[x.peer], x, alt, t.room);
    forall j | 0 <= j < |t.slices| ensures Phase(t.room, t.slices[j]) {
      assert Phase(s.room, s.slices[j]);
    }
  }

  lemma IndexUpdate(s: Sys, k: nat, y: Slice, index: map<TrackId, nat>)
    requires Indexed(s) && DistinctIds(s.slices) && k < |s.slices| && y.id == s.slices[k].id
    requires index == if IsIndexed(y) == IsIndexed(s.slices[k]) then s.index
                      else if IsIndexed(y) then s.index[y.id := k]
                      else s.index - {y.id}
    ensures Indexed(s.(slices := s.slices[k := y], index := index))
  {
    IndexedIff(s, k);
  }

  lemma IndexedIff(s: Sys, k: nat)
    requires Indexed(s) && DistinctIds(s.slices) && k < |s.slices|
    ensures s.slices[k].id in s.index <==> IsIndexed(s.slices[k])
  {
    var id := s.slices[k].id;
    assert id in s.index ==> s.slices[s.index[id]].id == id;
  }

  lemma IndexFrame(s: Sys, t: Sys)
    requires Indexed(s) && t.index == s.index && t.slices == s.slices
    ensures Indexed(t)
  {
  }

  lemma AdvanceIndexed(s: Sys, k: nat, alt: bool)
    requires Indexed(s) && DistinctIds(s.slices) && Enabled(s, Advance(k, alt))
    ensures Indexed(Advanced(s, k, alt))
  {
    var x := s.slices[k];
    var y, index := SliceAfter(s.room, x, alt), IndexAfter(s.index, x, k, alt);
    SliceAndIndex(s.room, s.peers[x.peer], x, alt, s.index, k);
    IndexUpdate(s, k, y, index);
    IndexFrame(s.(slices := s.slices[k := y], index := index), Advanced(s, k, alt));
  }

  /** Everything but the slice of kind `kind` is as before. */
  lemma KindFrame(peer: Peer, kind: Kind, slices: seq<Slice>, k: nat, y: Slice, p: Slice -> bool)
    requires k < |slices| && (kind in peer.tracks ==> peer.tracks[kind] != k)
    ensures KindIs(peer, kind, slices[k := y], p) == KindIs(peer, kind, slices, p)
  {
  }

  lemma KindOwn(peer: Peer, kind: Kind, slices: seq<Slice>, k: nat, y: Slice, p: Slice -> bool)
    requires k < |slices| && kind in peer.tracks && peer.tracks[kind] == k
    ensures KindIs(peer, kind, slices, p) == p(slices[k])
    ensures KindIs(peer, kind, slices[k := y], p) == p(y)
  {
  }

  lemma OwnPipe(r: Room, peer: Peer, slices: seq<Slice>, k: nat, alt: bool)
    requires k < |slices| && CanAdvance(r, peer, slices[k].pc, alt) && PipeGood(peer, slices)
    requires var x := slices[k]; x.kind in peer.tracks && peer.tracks[x.kind] == k
    requires forall kind :: kind in peer.tracks && kind != slices[k].kind ==> peer.tracks[kind] != k
    requires 7 <= At(slices[k].pc) <= 12 ==> peer.pipe.startedCh == 1
    ensures PipeGood(peer.(pipe := PipeAfter(peer.pipe, slices[k], alt)), slices[k := SliceAfter(r, slices[k], alt)])
  {
    var x, y := slices[k], SliceAfter(r, slices[k], alt);
    var other := if x.kind == Audio then Video else Audio;
    KindOwn(peer, x.kind, slices, k, y, HasBound);
    KindOwn(peer, x.kind, slices, k, y, HasStopped);
    KindFrame(peer, other, slices, k, y, HasBound);
    KindFrame(peer, other, slices, k, y, HasStopped);
    PipeAfterStatic(peer.pipe, x, alt);
    PipeAfterKeeps(r, peer, x, alt, Video in peer.tracks,
                   KindIs(peer, Audio, slices, HasBound), KindIs(peer, Video, slices, HasBound),
                   KindIs(peer, Audio, slices, HasStopped), KindIs(peer, Video, slices, HasStopped));
    KindsOfPipe(peer, PipeAfter(peer.pipe, x, alt), slices[k := y]);
  }

  lemma KindsOfPipe(peer: Peer, pipe: Pipe, slices: seq<Slice>)
    ensures forall kind, p: Slice -> bool ::
              KindIs(peer.(pipe := pipe), kind, slices, p) == KindIs(peer, kind, slices, p)
  {
  }

  lemma OtherPipe(s: Sys, p: nat, k: nat, y: Slice)
    requires Shape(s) && Pipes(s) && p < |s.peers| && k < |s.slices| && s.slices[k].peer != p
    ensures PipeGood(s.peers[p], s.slices[k := y])
  {
    var peer := s.peers[p];
    assert PipeGood(peer, s.slices);
    assert Audio in peer.tracks ==> TrackShape(s, p, Audio);
    assert Video in peer.tracks ==> TrackShape(s, p, Video);
    KindFrame(peer, Audio, s.slices, k, y, HasBound);
    KindFrame(peer, Video, s.slices, k, y, HasBound);
    KindFrame(peer, Audio, s.slices, k, y, HasStopped);
    KindFrame(peer, Video, s.slices, k, y, HasStopped);
  }

  lemma AdvancePipes(s: Sys, k: nat, alt: bool)
    requires Shape(s) && Pipes(s) && Enabled(s, Advance(k, alt))
    ensures Pipes(Advanced(s, k, alt))
  {
    var x := s.slices[k];
    var t, y := Advanced(s, k, alt), SliceAfter(s.room, x, alt);
    assert SliceShape(s, x, k) && PipeGood(s.peers[x.peer], s.slices) && StartSeen(s, x);
    forall kind | kind in s.peers[x.peer].tracks && kind != x.kind ensures s.peers[x.peer].tracks[kind] != k {
      assert TrackShape(s, x.peer, kind);
    }
    OwnPipe(s.room, s.peers[x.peer], s.slices, k, alt);
    forall p | 0 <= p < |t.peers| ensures PipeGood(t.peers[p], t.slices) {
      if p != x.peer {
        OtherPipe(s, p, k, y);
      }
    }
    PipeAfterStatic(s.peers[x.peer].pipe, x, alt);
    SliceAndPipe(s.room, s.peers[x.peer], x, alt);
    assert t.peers[x.peer].pipe.startedCh <= 1;
    forall j | 0 <= j < |t.slices| ensures StartSeen(t, t.slices[j]) {
      assert StartSeen(s, s.slices[j]);
    }
  }

  lemma AdvanceSessions(s: Sys, k: nat, alt: bool)
    requires Sessions(s) && Enabled(s, Advance(k, alt))
    ensures Sessions(Advanced(s, k, alt))
  {
    var t := Advanced(s, k, alt);
    forall p | 0 <= p < |t.peers| ensures Session(t.peers[p]) {
      assert Session(s.peers[p]);
    }
  }

  lemma AdvanceInv(s: Sys, k: nat, alt: bool)
    requires Inv(s) && Enabled(s, Advance(k, alt))
    ensures Inv(Advanced(s, k, alt))
  {
    AdvanceRoom(s, k, alt);
    AdvanceCounters(s, k, alt);
    AdvanceShape(s, k, alt);
    AdvancePhases(s, k, alt);
    AdvanceIndexed(s, k, alt);
    AdvancePipes(s, k, alt);
    AdvanceSessions(s, k, alt);
  }

  // ---- the other steps

  /** What the slices see of the room. */
  ghost predicate SameView(r: Room, t: Room) {
    t.inTracksReadyCount == r.inTracksReadyCount
    && t.outTracksReadyCount == r.outTracksReadyCount
    && t.pipelineStartCount == r.pipelineStartCount
    && t.readyCh == r.readyCh && r.abortedCh <= t.abortedCh <= 1
  }

  /** A step of the room alone. */
  lemma RoomStep(s: Sys, r: Room)
    requires SlicesInv(s) && SameView(s.room, r)
    ensures SlicesInv(s.(room := r))
  {
    var t := s.(room := r);
    ShapeFrame(s, t);
    forall k | 0 <= k < |t.slices| ensures Phase(t.room, t.slices[k]) && StartSeen(t, t.slices[k]) {
      assert Phase(s.room, s.slices[k]) && StartSeen(s, s.slices[k]);
    }
  }

  lemma PendingPlaysNoPart(s: Sys, pending: multiset<Request>)
    requires SlicesInv(s)
    ensures SlicesInv(s.(pending := pending))
  {
    var t := s.(pending := pending);
    ShapeFrame(s, t);
    IndexFrame(s, t);
    forall k | 0 <= k < |t.slices| ensures StartSeen(t, t.slices[k]) {
      assert StartSeen(s, s.slices[k]);
    }
  }

  lemma SessionStep(s: Sys, p: nat, peer: Peer)
    requires SlicesInv(s) && p < |s.peers| && Session(peer)
    requires peer.pipe == s.peers[p].pipe && peer.tracks == s.peers[p].tracks
    ensures SlicesInv(s.(peers := s.peers[p := peer]))
  {
    var t := s.(peers := s.peers[p := peer]);
    ShapeFrame(s, t);
    SessionPipes(s, p, peer);
    IndexFrame(s, t);
    assert Counters(t) && Phases(t);
    forall q | 0 <= q < |t.peers| ensures Session(t.peers[q]) {
      assert Session(s.peers[q]);
    }
  }

  lemma SessionPipes(s: Sys, p: nat, peer: Peer)
    requires Pipes(s) && p < |s.peers|
    requires peer.pipe == s.peers[p].pipe && peer.tracks == s.peers[p].tracks
    ensures Pipes(s.(peers := s.peers[p := peer]))
  {
    var t := s.(peers := s.peers[p := peer]);
    forall q | 0 <= q < |t.peers| ensures PipeGood(t.peers[q], t.slices) {
      assert PipeGood(s.peers[q], s.slices);
    }
    forall k | 0 <= k < |t.slices| ensures StartSeen(t, t.slices[k]) {
      assert StartSeen(s, s.slices[k]);
    }
  }

  lemma MorePeersShape(s: Sys, peer: Peer)
    requires Shape(s) && peer.tracks == map[]
    ensures Shape(s.(peers := s.peers + [peer]))
  {
    var t := s.(peers := s.peers + [peer]);
    forall k | 0 <= k < |t.slices| ensures SliceShape(t, t.slices[k], k) {
      assert SliceShape(s, s.slices[k], k);
    }
    forall q, kind | 0 <= q < |t.peers| && kind in t.peers[q].tracks ensures TrackShape(t, q, kind) {
      assert TrackShape(s, q, kind);
    }
  }

  lemma MorePeersPipes(s: Sys, peer: Peer)
    requires Pipes(s) && peer.tracks == map[] && PipeState(peer.pipe, false, false, false, false, false)
    ensures Pipes(s.(peers := s.peers + [peer]))
  {
    var t := s.(peers := s.peers + [peer]);
    forall k | 0 <= k < |t.slices| ensures StartSeen(t, t.slices[k]) {
      assert StartSeen(s, s.slices[k]);
    }
    forall q | 0 <= q < |t.peers| ensures PipeGood(t.peers[q], t.slices) {
      assert q < |s.peers| ==> PipeGood(s.peers[q], s.slices);
    }
  }

  lemma MorePeers(s: Sys, peer: Peer)
    requires SlicesInv(s) && peer.tracks == map[] && Session(peer)
    requires PipeState(peer.pipe, false, false, false, false, false)
    ensures SlicesInv(s.(peers := s.peers + [peer]))
  {
    var t := s.(peers := s.peers + [peer]);
    MorePeersShape(s, peer);
    MorePeersPipes(s, peer);
    IndexFrame(s, t);
    assert Counters(t) && Phases(t) && Sessions(t);
  }

  lemma NewPeerInv(s: Sys, user: UserId, audioOnly: bool)
    requires Inv(s)
    ensures Inv(s.(room := ConnectPeerServer(s.room, user, |s.peers|),
                   peers := s.peers + [Peer(user, NewPipe(audioOnly), map[], false, 0, false, true)],
                   pending := s.pending - multiset{Request(user, audioOnly)}))
  {
    var r := ConnectPeerServer(s.room, user, |s.peers|);
    ConnectInv(s.room, user, |s.peers|);
    assert RoomInv(s.room) ==> s.room.abortedCh <= 1;
    RoomStep(s, r);
    var peer := Peer(user, NewPipe(audioOnly), map[], false, 0, false, true);
    MorePeers(s.(room := r), peer);
    PendingPlaysNoPart(s.(room := r, peers := s.peers + [peer]), s.pending - multiset{Request(user, audioOnly)});
  }

  lemma ArrivalCounters(s: Sys, x: Slice, t: Sys)
    requires Counters(s) && x.pc == InCheck && !x.counted
    requires t.slices == s.slices + [x] && t.room == s.room
    ensures Counters(t)
  {
    CountSnoc(s.slices, x, IsCounted);
    CountSnoc(s.slices, x, IsOut);
    CountSnoc(s.slices, x, HasCalledStart);
  }

  lemma ArrivalShape(s: Sys, p: nat, kind: Kind, id: TrackId)
    requires Shape(s) && Enabled(s, TrackArrives(p, kind, id))
    ensures Shape(Next(s, TrackArrives(p, kind, id)))
  {
    var t := Next(s, TrackArrives(p, kind, id));
    forall k | 0 <= k < |s.slices| ensures SliceShape(t, t.slices[k], k) && t.slices[k].id != id {
      assert SliceShape(s, s.slices[k], k);
    }
    assert DistinctIds(t.slices);
    assert SliceShape(t, t.slices[|s.slices|], |s.slices|);
    forall q, kd | 0 <= q < |t.peers| && kd in t.peers[q].tracks ensures TrackShape(t, q, kd) {
      if q != p || kd != kind {
        assert TrackShape(s, q, kd);
      }
    }
  }

  lemma KindArrival(peer: Peer, kind: Kind, slices: seq<Slice>, x: Slice, p: Slice -> bool)
    requires kind in peer.tracks ==> peer.tracks[kind] < |slices|
    ensures KindIs(peer, kind, slices + [x], p) == KindIs(peer, kind, slices, p)
  {
  }

  lemma OtherPipeArrival(peer: Peer, slices: seq<Slice>, x: Slice)
    requires PipeGood(peer, slices)
    requires forall kind :: kind in peer.tracks ==> peer.tracks[kind] < |slices|
    ensures PipeGood(peer, slices + [x])
  {
    KindArrival(peer, Audio, slices, x, HasBound);
    KindArrival(peer, Video, slices, x, HasBound);
    KindArrival(peer, Audio, slices, x, HasStopped);
    KindArrival(peer, Video, slices, x, HasStopped);
  }

  lemma OwnPipeArrival(peer: Peer, slices: seq<Slice>, x: Slice)
    requires PipeGood(peer, slices) && x.pc == InCheck && x.kind !in peer.tracks
    requires forall kind :: kind in peer.tracks ==> peer.tracks[kind] < |slices|
    ensures PipeGood(peer.(tracks := peer.tracks[x.kind := |slices|]), slices + [x])
  {
    OtherPipeArrival(peer, slices, x);
  }

  lemma ArrivalPipes(s: Sys, p: nat, kind: Kind, id: TrackId)
    requires Shape(s) && Pipes(s) && Enabled(s, TrackArrives(p, kind, id))
    ensures Pipes(Next(s, TrackArrives(p, kind, id)))
  {
    var t := Next(s, TrackArrives(p, kind, id));
    var x := Slice(id, p, kind, InCheck, false, 0);
    forall q | 0 <= q < |t.peers| ensures PipeGood(t.peers[q], t.slices) {
      assert PipeGood(s.peers[q], s.slices);
      forall kd | kd in s.peers[q].tracks ensures s.peers[q].tracks[kd] < |s.slices| {
        assert TrackShape(s, q, kd);
      }
      if q == p {
        OwnPipeArrival(s.peers[q], s.slices, x);
      } else {
        OtherPipeArrival(s.peers[q], s.slices, x);
      }
    }
    forall k | 0 <= k < |t.slices| ensures StartSeen(t, t.slices[k]) {
      assert k < |s.slices| ==> StartSeen(s, s.slices[k]);
    }
  }

  lemma ArrivalIndex(s: Sys, x: Slice, t: Sys)
    requires Indexed(s) && x.pc == InCheck && t.slices == s.slices + [x] && t.index == s.index
    ensures Indexed(t)
  {
  }

  lemma ArrivalPhases(s: Sys, x: Slice, t: Sys)
    requires Phases(s) && x.pc == InCheck && !x.counted && x.doneCh == 0
    requires t.slices == s.slices + [x] && t.room == s.room
    ensures Phases(t)
  {
    forall k | 0 <= k < |t.slices| ensures Phase(t.room, t.slices[k]) {
      assert k < |s.slices| ==> Phase(s.room, s.slices[k]);
    }
  }

  lemma ArrivalSessions(s: Sys, p: nat, tracks: map<Kind, nat>, t: Sys)
    requires Sessions(s) && p < |s.peers|
    requires t.peers == s.peers[p := s.peers[p].(tracks := tracks)]
    ensures Sessions(t)
  {
    forall q | 0 <= q < |t.peers| ensures Session(t.peers[q]) {
      assert Session(s.peers[q]);
    }
  }

  lemma TrackArrivesInv(s: Sys, p: nat, kind: Kind, id: TrackId)
    requires SlicesInv(s) && Enabled(s, TrackArrives(p, kind, id))
    ensures SlicesInv(Next(s, TrackArrives(p, kind, id)))
  {
    var t := Next(s, TrackArrives(p, kind, id));
    var x := Slice(id, p, kind, InCheck, false, 0);
    ArrivalCounters(s, x, t);
    ArrivalShape(s, p, kind, id);
    ArrivalPipes(s, p, kind, id);
    ArrivalIndex(s, x, t);
    ArrivalPhases(s, x, t);
    ArrivalSessions(s, p, s.peers[p].tracks[kind := |s.slices|], t);
  }

  lemma SameCounters(s: Sys, k: nat, y: Slice)
    requires Counters(s) && k < |s.slices| && At(y.pc) == At(s.slices[k].pc) && y.counted == s.slices[k].counted
    ensures Counters(s.(slices := s.slices[k := y]))
  {
    CountUpdate(s.slices, k, y, IsCounted);
    CountUpdate(s.slices, k, y, IsOut);
    CountUpdate(s.slices, k, y, HasCalledStart);
  }

  lemma SameIndex(s: Sys, k: nat, y: Slice)
    requires Indexed(s) && DistinctIds(s.slices) && k < |s.slices|
    requires y.id == s.slices[k].id && IsIndexed(y) == IsIndexed(s.slices[k])
    ensures Indexed(s.(slices := s.slices[k := y]))
  {
    IndexUpdate(s, k, y, s.index);
    IndexFrame(s.(slices := s.slices[k := y], index := s.index), s.(slices := s.slices[k := y]));
  }

  lemma SamePhases(s: Sys, k: nat, y: Slice)
    requires Phases(s) && k < |s.slices| && Phase(s.room, y)
    ensures Phases(s.(slices := s.slices[k := y]))
  {
  }

  lemma SameSessions(s: Sys, t: Sys)
    requires Sessions(s) && t.peers == s.peers
    ensures Sessions(t)
  {
  }

  lemma ReadingIsSelect(r: Room, x: Slice)
    requires x.pc == Select && Phase(r, x)
    ensures var y := x.(pc := Reading);
            Phase(r, y) && At(y.pc) == At(x.pc) && IsIndexed(y) == IsIndexed(x)
  {
  }

  lemma PhaseOf(s: Sys, k: nat)
    requires Phases(s) && k < |s.slices|
    ensures Phase(s.room, s.slices[k])
  {
  }

  /** Select and Reading are the same place for every part of the invariant. */
  lemma ReadInv(s: Sys, k: nat)
    requires SlicesInv(s) && k < |s.slices| && s.slices[k].pc == Select
    ensures SlicesInv(s.(slices := s.slices[k := s.slices[k].(pc := Reading)]))
  {
    PhaseOf(s, k);
    ReadingIsSelect(s.room, s.slices[k]);
    SameSteps(s, k, s.slices[k].(pc := Reading));
  }

  lemma SameSteps(s: Sys, k: nat, y: Slice)
    requires SlicesInv(s) && k < |s.slices| && Phase(s.room, y)
    requires y == s.slices[k].(pc := y.pc) && At(y.pc) == At(s.slices[k].pc)
    requires IsIndexed(y) == IsIndexed(s.slices[k])
    ensures SlicesInv(s.(slices := s.slices[k := y]))
  {
    var t := s.(slices := s.slices[k := y]);
    SameCounters(s, k, y);
    ShapeFrame(s, t);
    SameIndex(s, k, y);
    PipesSame(s, k, y);
    SamePhases(s, k, y);
    SameSessions(s, t);
  }

  lemma KindSame(peer: Peer, kind: Kind, slices: seq<Slice>, k: nat, y: Slice, p: Slice -> bool)
    requires k < |slices| && p(y) == p(slices[k])
    ensures KindIs(peer, kind, slices[k := y], p) == KindIs(peer, kind, slices, p)
  {
  }

  lemma PipeSame(peer: Peer, slices: seq<Slice>, k: nat, y: Slice)
    requires PipeGood(peer, slices) && k < |slices|
    requires HasBound(y) == HasBound(slices[k]) && HasStopped(y) == HasStopped(slices[k])
    ensures PipeGood(peer, slices[k := y])
  {
    KindSame(peer, Audio, slices, k, y, HasBound);
    KindSame(peer, Video, slices, k, y, HasBound);
    KindSame(peer, Audio, slices, k, y, HasStopped);
    KindSame(peer, Video, slices, k, y, HasStopped);
  }

  lemma PipesSame(s: Sys, k: nat, y: Slice)
    requires Pipes(s) && k < |s.slices| && y.peer == s.slices[k].peer && At(y.pc) == At(s.slices[k].pc)
    ensures Pipes(s.(slices := s.slices[k := y]))
  {
    var t := s.(slices := s.slices[k := y]);
    forall q | 0 <= q < |t.peers| ensures PipeGood(t.peers[q], t.slices) {
      PipeSame(s.peers[q], s.slices, k, y);
    }
    forall j | 0 <= j < |t.slices| ensures StartSeen(t, t.slices[j]) {
      assert StartSeen(s, s.slices[j]);
    }
  }

  lemma TimerRoomInv(r: Room, step: Step)
    requires RoomInv(r) && TimerReady(r, step)
    ensures RoomInv(TimerNext(r, step))
  {
    AbortTimerInv(r);
    GracefulTimerInv(r);
  }

  lemma TimerView(r: Room, step: Step)
    requires Channels(TimerNext(r, step)) && TimerReady(r, step)
    ensures SameView(r, TimerNext(r, step))
  {
  }

  lemma JoinView(r: Room, u: UserId)
    requires r.abortedCh <= 1
    ensures SameView(r, Join(r, u).0)
  {
  }

  lemma DisconnectView(r: Room, u: UserId)
    requires r.abortedCh <= 1
    ensures SameView(r, DisconnectUser(r, u))
  {
  }

  lemma SessionInv(s: Sys, step: Step)
    requires SlicesInv(s) && Enabled(s, step)
    requires step.Watch? || step.Close?
    ensures SlicesInv(Next(s, step)) && Next(s, step).room == s.room
  {
    assert Session(s.peers[step.p]);
    SessionStep(s, step.p, Next(s, step).peers[step.p]);
  }

  lemma DisconnectSlices(s: Sys, p: nat)
    requires SlicesInv(s) && p < |s.peers| && s.room.abortedCh <= 1
    ensures SlicesInv(s.(room := DisconnectUser(s.room, s.peers[p].userId),
                         peers := s.peers[p := s.peers[p].(disconnecting := false)]))
  {
    var r := DisconnectUser(s.room, s.peers[p].userId);
    assert Session(s.peers[p]);
    DisconnectView(s.room, s.peers[p].userId);
    RoomStep(s, r);
    SessionStep(s.(room := r), p, s.peers[p].(disconnecting := false));
  }

  lemma JoinUserInv(s: Sys, user: UserId, pending: multiset<Request>)
    requires Inv(s)
    ensures Inv(s.(room := Join(s.room, user).0, pending := pending))
  {
    JoinInv(s.room, user);
    JoinView(s.room, user);
    RoomStep(s, Join(s.room, user).0);
    PendingPlaysNoPart(s.(room := Join(s.room, user).0), pending);
  }

  lemma JoinStepInv(s: Sys, user: UserId, audioOnly: bool)
    requires Inv(s) && Enabled(s, JoinUser(user, audioOnly))
    ensures Inv(Next(s, JoinUser(user, audioOnly)))
  {
    JoinUserInv(s, user, Next(s, JoinUser(user, audioOnly)).pending);
  }

  lemma DisconnectPeerInv(s: Sys, p: nat)
    requires Inv(s) && Enabled(s, Disconnect(p))
    ensures Inv(Next(s, Disconnect(p)))
  {
    DisconnectInv(s.room, s.peers[p].userId);
    DisconnectSlices(s, p);
  }

  lemma TimerInv(s: Sys, step: Step)
    requires Inv(s) && IsTimer(step) && TimerReady(s.room, step)
    ensures Inv(s.(room := TimerNext(s.room, step)))
  {
    TimerRoomInv(s.room, step);
    TimerView(s.room, step);
    RoomStep(s, TimerNext(s.room, step));
  }

  /** Every step keeps the invariant. */
  lemma StepInv(s: Sys, step: Step)
    requires Inv(s) && Enabled(s, step)
    ensures Inv(Next(s, step))
  {
    match step
    case JoinUser(user, audioOnly) => JoinStepInv(s, user, audioOnly);
    case NewPeer(user, audioOnly) => NewPeerInv(s, user, audioOnly);
    case TrackArrives(p, kind, id) => TrackArrivesInv(s, p, kind, id);
    case Advance(k, alt) => AdvanceInv(s, k, alt);
    case Read(k) => ReadInv(s, k);
    case Watch(_, _) => SessionInv(s, step);
    case Close(_) => SessionInv(s, step);
    case Disconnect(p) => DisconnectPeerInv(s, p);
    case _ => TimerInv(s, step);
  }

  // ---- what no step undoes

  /** The same room, at least as much deleted. */
  ghost predicate SameRoom(r: Room, t: Room) {
    t.id == r.id && (r.deleted ==> t.deleted)
  }

  lemma JoinSameRoom(r: Room, u: UserId)
    ensures SameRoom(r, Join(r, u).0) && Join(r, u).0.deleted == r.deleted
  {
  }

  lemma AdvanceSameRoom(r: Room, pc: Pc)
    ensures SameRoom(r, RoomAfter(r, pc))
  {
  }

  lemma DisconnectSameRoom(r: Room, u: UserId)
    ensures SameRoom(r, DisconnectUser(r, u))
  {
  }

  lemma TimerSameRoom(r: Room, step: Step)
    ensures SameRoom(r, TimerNext(r, step))
  {
  }

  /** No step changes a room's id or undoes its deletion. */
  lemma StepSameRoom(s: Sys, step: Step)
    requires Enabled(s, step)
    ensures SameRoom(s.room, Next(s, step).room)
  {
    match step
    case JoinUser(user, _) => JoinSameRoom(s.room, user);
    case Advance(k, _) => AdvanceSameRoom(s.room, s.slices[k].pc);
    case Disconnect(p) => DisconnectSameRoom(s.room, s.peers[p].userId);
    case NewPeer(_, _) =>
    case TrackArrives(_, _, _) =>
    case Read(_) =>
    case Watch(_, _) =>
    case Close(_) =>
    case _ => TimerSameRoom(s.room, step);
  }

  // ---- whole runs

  ghost predicate Follows(s: Sys, step: Step, t: Sys) {
    Enabled(s, step) && t == Next(s, step)
  }

  /** A sequence of states, each following from the one before by a step. */
  ghost predicate Path(states: seq<Sys>, steps: seq<Step>) {
    |states| == |steps| + 1 && forall k :: 0 <= k < |steps| ==> Follows(states[k], steps[k], states[k + 1])
  }

  ghost predicate Run(states: seq<Sys>, steps: seq<Step>) {
    Path(states, steps) && Init(states[0])
  }

  lemma FollowsInv(s: Sys, step: Step, t: Sys)
    requires Inv(s) && Follows(s, step, t)
    ensures Inv(t)
  {
    StepInv(s, step);
  }

  lemma {:induction false} PathInv(states: seq<Sys>, steps: seq<Step>, k: nat)
    requires Path(states, steps) && k < |states| && Inv(states[0])
    ensures Inv(states[k])
  {
    if k > 0 {
      PathInv(states, steps, k - 1);
      FollowsInv(states[k - 1], steps[k - 1], states[k]);
    }
  }

  lemma ReachableInv(states: seq<Sys>, steps: seq<Step>, k: nat)
    requires Run(states, steps) && k < |states|
    ensures Inv(states[k])
  {
    InitInv(states[0]);
    PathInv(states, steps, k);
  }

  // ---- what steps do to the index of peer servers

  /** Counting and starting leave size, members and deletion alone. */
  ghost predicate SameMembers(r: Room, t: Room) {
    t.size == r.size && t.peerServerIndex == r.peerServerIndex && t.connectedIndex == r.connectedIndex
    && t.deleted == r.deleted
  }

  lemma CountsView(r: Room)
    ensures SameMembers(r, CountInTrack(r)) && SameMembers(r, CountOutTrack(r).0) && SameMembers(r, DropOutTrack(r))
  {
  }

  lemma StartView(r: Room)
    ensures SameMembers(r, Start(r))
  {
  }

  lemma RoomAfterView(r: Room, pc: Pc)
    ensures SameMembers(r, RoomAfter(r, pc))
  {
    CountsView(r);
    StartView(r);
  }

  lemma JoinPeers(r: Room, u: UserId)
    ensures Join(r, u).0.size == r.size && Join(r, u).0.peerServerIndex == r.peerServerIndex
    ensures r.connectedIndex.Keys <= Join(r, u).0.connectedIndex.Keys && Join(r, u).0.deleted == r.deleted
  {
    if u in r.connectedIndex {
    } else if |r.connectedIndex| == r.size {
    }
  }

  lemma TimerPeers(r: Room, step: Step)
    ensures TimerNext(r, step).size == r.size && TimerNext(r, step).peerServerIndex == r.peerServerIndex
    ensures TimerNext(r, step).connectedIndex == r.connectedIndex
  {
  }

  lemma DisconnectPeers(r: Room, u: UserId)
    ensures DisconnectUser(r, u).size == r.size
    ensures DisconnectUser(r, u).connectedIndex.Keys == r.connectedIndex.Keys
    ensures DisconnectUser(r, u).peerServerIndex ==
            if IsConnected(r, u) then r.peerServerIndex - {u} else r.peerServerIndex
  {
  }

  /** Each user's entry is her last peer server, and only members have one. */
  ghost predicate LatestIndexed(s: Sys) {
    forall u :: u in s.room.peerServerIndex ==>
      u in s.room.connectedIndex && IsLatest(s.peers, u, s.room.peerServerIndex[u])
  }

  ghost predicate IsLatest(peers: seq<Peer>, u: UserId, q: nat) {
    q < |peers| && peers[q].userId == u && forall p :: q < p < |peers| ==> peers[p].userId != u
  }

  ghost predicate SamePeerIndex(s: Sys, t: Sys) {
    t.room.size == s.room.size && s.room.connectedIndex.Keys <= t.room.connectedIndex.Keys
    && t.room.peerServerIndex.Keys <= s.room.peerServerIndex.Keys
    && (forall u :: u in t.room.peerServerIndex ==> t.room.peerServerIndex[u] == s.room.peerServerIndex[u])
    && |t.peers| == |s.peers| && forall p :: 0 <= p < |s.peers| ==> t.peers[p].userId == s.peers[p].userId
  }

  lemma SamePeerIndexKeeps(s: Sys, t: Sys)
    requires LatestIndexed(s) && SamePeerIndex(s, t)
    ensures LatestIndexed(t)
  {
    forall u | u in t.room.peerServerIndex ensures IsLatest(t.peers, u, t.room.peerServerIndex[u]) {
      assert IsLatest(s.peers, u, s.room.peerServerIndex[u]);
    }
  }

  lemma StepPeerIndex(s: Sys, step: Step)
    requires Enabled(s, step) && !step.NewPeer?
    ensures SamePeerIndex(s, Next(s, step))
  {
    match step
    case JoinUser(user, _) => JoinPeers(s.room, user);
    case Advance(k, _) => RoomAfterView(s.room, s.slices[k].pc);
    case Disconnect(p) => DisconnectPeers(s.room, s.peers[p].userId);
    case TrackArrives(_, _, _) =>
    case Read(_) =>
    case Watch(_, _) =>
    case Close(_) =>
    case _ => TimerPeers(s.room, step);
  }

  lemma NewPeerIsLatest(s: Sys, peer: Peer, pending: multiset<Request>)
    requires LatestIndexed(s) && peer.userId in s.room.connectedIndex
    ensures LatestIndexed(s.(room := ConnectPeerServer(s.room, peer.userId, |s.peers|),
                             peers := s.peers + [peer], pending := pending))
  {
    forall u | u in s.room.peerServerIndex && u != peer.userId
      ensures IsLatest(s.peers + [peer], u, s.room.peerServerIndex[u])
    {
      assert IsLatest(s.peers, u, s.room.peerServerIndex[u]);
    }
  }

  lemma FollowsLatest(s: Sys, step: Step, t: Sys)
    requires LatestIndexed(s) && Follows(s, step, t)
    ensures LatestIndexed(t)
  {
    if step.NewPeer? {
      var peer := Peer(step.user, NewPipe(step.audioOnly), map[], false, 0, false, true);
      NewPeerIsLatest(s, peer, t.pending);
    } else {
      StepPeerIndex(s, step);
      SamePeerIndexKeeps(s, t);
    }
  }

  lemma {:induction false} ReachableLatest(states: seq<Sys>, steps: seq<Step>, k: nat)
    requires Run(states, steps) && k < |states|
    ensures LatestIndexed(states[k])
  {
    if k == 0 {
      var id, jp :| states[0].room == NewRoom(id, jp)
                    && states[0].pending == multiset{Request(jp.userId, jp.audioOnly)};
    } else {
      ReachableLatest(states, steps, k - 1);
      FollowsLatest(states[k - 1], steps[k - 1], states[k]);
    }
  }

  ghost predicate Reaches(s: Sys, t: Sys) {
    exists states: seq<Sys>, steps: seq<Step> ::
      Path(states, steps) && states[0] == s && states[|steps|] == t
  }

  ghost predicate Reachable(t: Sys) {
    exists s :: Init(s) && Reaches(s, t)
  }

  lemma ReachesItself(s: Sys)
    ensures Reaches(s, s)
  {
    assert Path([s], []);
  }

  lemma PathSnoc(states: seq<Sys>, steps: seq<Step>, step: Step, t: Sys)
    requires Path(states, steps) && Follows(states[|steps|], step, t)
    ensures Path(states + [t], steps + [step])
  {
    var longer, more := states + [t], steps + [step];
    forall n | 0 <= n < |more| ensures Follows(longer[n], more[n], longer[n + 1]) {
      if n < |steps| {
        assert Follows(states[n], steps[n], states[n + 1]);
      }
    }
  }

  lemma ReachesNext(s: Sys, t: Sys, step: Step)
    requires Reaches(s, t) && Enabled(t, step)
    ensures Reaches(s, Next(t, step))
  {
    var states: seq<Sys>, steps: seq<Step> :| Path(states, steps) && states[0] == s && states[|steps|] == t;
    PathSnoc(states, steps, step, Next(t, step));
    assert (states + [Next(t, step)])[0] == s;
  }

  lemma ReachableHasInv(t: Sys)
    requires Reachable(t)
    ensures Inv(t)
  {
    var s :| Init(s) && Reaches(s, t);
    var states: seq<Sys>, steps: seq<Step> :| Path(states, steps) && states[0] == s && states[|steps|] == t;
    ReachableInv(states, steps, |steps|);
  }
}
