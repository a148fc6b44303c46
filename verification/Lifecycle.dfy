/** What holds over whole runs of an interaction: one-shot channels, counters, pipelines,
    deletion and teardown (sfu/interaction.go, sfu/peer_server.go, sfu/mixer_slice.go). */
module Lifecycle {
  import opened Base
  import opened PipelineProtocol
  import opened RoomSpec
  import opened RoomSystem
  import Payload

  // ---- safety over every run

  /** In every interleaving each of the four channels is closed at most once, and doneCh
      only after startedCh, itself only after readyCh; so are the channels of every slice,
      peer server and pipeline. */
  lemma ChannelsClosedOnce(states: seq<Sys>, steps: seq<Step>, n: nat)
    requires Run(states, steps) && n < |states|
    ensures var r := states[n].room;
            r.doneCh <= r.startedCh <= r.readyCh <= 1 && r.abortedCh <= 1
    ensures forall k :: 0 <= k < |states[n].slices| ==> states[n].slices[k].doneCh <= 1
    ensures forall p :: 0 <= p < |states[n].peers| ==>
              states[n].peers[p].doneCh <= 1 && states[n].peers[p].pipe.startedCh <= 1
  {
    ReachableInv(states, steps, n);
    var s := states[n];
    forall k | 0 <= k < |s.slices| ensures s.slices[k].doneCh <= 1 {
      assert Phase(s.room, s.slices[k]);
    }
    forall p | 0 <= p < |s.peers| ensures s.peers[p].doneCh <= 1 && s.peers[p].pipe.startedCh <= 1 {
      assert Session(s.peers[p]) && PipeGood(s.peers[p], s.slices);
    }
  }

  // ---- readiness

  /** Two tracks for each user of the room, one if it was made for audio only; its size is the
      one asked for between 1 and 8, 2 if less was asked for and 8 if more. */
  function TracksNeeded(jp: Payload.JoinPayload): nat {
    (if jp.size < 1 then 2 else if jp.size > 8 then 8 else jp.size) * (if jp.audioOnly then 1 else 2)
  }

  lemma NeedKept(s: Sys, step: Step)
    requires Enabled(s, step)
    ensures Next(s, step).room.neededTracks == s.room.neededTracks
  {
    match step
    case JoinUser(user, _) => JoinNeed(s.room, user);
    case Advance(k, _) => AdvanceNeed(s.room, s.slices[k].pc);
    case Disconnect(p) => DisconnectNeed(s.room, s.peers[p].userId);
    case NewPeer(_, _) =>
    case TrackArrives(_, _, _) =>
    case Read(_) =>
    case Watch(_, _) =>
    case Close(_) =>
    case _ => TimerNeed(s.room, step);
  }

  lemma JoinNeed(r: Room, u: UserId)
    ensures Join(r, u).0.neededTracks == r.neededTracks
  {
  }

  lemma AdvanceNeed(r: Room, pc: Pc)
    ensures RoomAfter(r, pc).neededTracks == r.neededTracks
  {
  }

  lemma DisconnectNeed(r: Room, u: UserId)
    ensures DisconnectUser(r, u).neededTracks == r.neededTracks
  {
  }

  lemma TimerNeed(r: Room, step: Step)
    ensures TimerNext(r, step).neededTracks == r.neededTracks
  {
  }

  lemma {:induction false} NeedAlong(states: seq<Sys>, steps: seq<Step>, n: nat)
    requires Path(states, steps) && n < |states|
    ensures states[n].room.neededTracks == states[0].room.neededTracks
  {
    if n > 0 {
      NeedAlong(states, steps, n - 1);
      assert Follows(states[n - 1], steps[n - 1], states[n]);
      NeedKept(states[n - 1], steps[n - 1]);
    }
  }

  /** Over every run of a room made from a payload, readyCh is closed exactly when as many slices
      as the payload asks for have been counted in. */
  lemma ReadyIff(states: seq<Sys>, steps: seq<Step>, n: nat, id: string, jp: Payload.JoinPayload)
    requires Run(states, steps) && n < |states| && states[0].room == NewRoom(id, jp)
    ensures states[n].room.readyCh == 1 <==> Count(states[n].slices, IsCounted) >= TracksNeeded(jp)
    ensures states[n].room.readyCh <= 1
  {
    ReachableInv(states, steps, n);
    NeedAlong(states, steps, n);
  }

  // ---- the end of a slice's loop

  predicate NotReading(s: Sys, k: nat) {
    k < |s.slices| && s.slices[k].peer < |s.peers| && s.peers[s.slices[k].peer].doneCh > 0 && s.slices[k].pc != Reading
  }

  lemma StaysNotReading(s: Sys, step: Step, t: Sys, k: nat)
    requires Follows(s, step, t) && NotReading(s, k)
    ensures NotReading(t, k)
  {
  }

  /** What every state keeps from one to the next, the last has if the first has. */
  lemma {:induction false} AlongPath(keeps: Sys -> bool, states: seq<Sys>, n: nat, m: nat)
    requires n <= m < |states| && keeps(states[n])
    requires forall i :: n <= i < m && keeps(states[i]) ==> keeps(states[i + 1])
    ensures keeps(states[m])
    decreases m
  {
    if n < m {
      AlongPath(keeps, states, n, m - 1);
    }
  }

  /** Once its peer server is closed, a slice that is not in the middle of a read never reads
      again, so it pushes no more. */
  lemma {:induction false} ClosedPeerStopsReading(states: seq<Sys>, steps: seq<Step>, n: nat, m: nat, k: nat)
    requires Path(states, steps) && n <= m < |states| && NotReading(states[n], k)
    ensures NotReading(states[m], k)
  {
    var keeps := (s: Sys) => NotReading(s, k);
    forall i | n <= i < m && keeps(states[i]) ensures keeps(states[i + 1]) {
      StaysNotReading(states[i], steps[i], states[i + 1], k);
    }
    AlongPath(keeps, states, n, m);
  }

  predicate Looping(s: Sys, k: nat) {
    k < |s.slices| && s.slices[k].peer < |s.peers| && s.slices[k].pc in {Select, Reading}
  }

  /** The slice's read, if this is one, does not fail, and its peer server is open. */
  predicate Undisturbed(s: Sys, step: Step, k: nat) {
    step != Advance(k, true)
    && (k < |s.slices| && s.slices[k].peer < |s.peers| ==> s.peers[s.slices[k].peer].doneCh == 0)
  }

  lemma StaysLooping(s: Sys, step: Step, t: Sys, k: nat)
    requires Follows(s, step, t) && Looping(s, k) && Undisturbed(s, step, k)
    ensures Looping(t, k)
  {
  }

  /** As long as its peer server is open and no read fails, a slice in its loop stays there. */
  lemma {:induction false} OpenPeerKeepsLooping(states: seq<Sys>, steps: seq<Step>, n: nat, m: nat, k: nat)
    requires Path(states, steps) && n <= m < |states| && Looping(states[n], k)
    requires forall i :: n <= i < m ==> Undisturbed(states[i], steps[i], k)
    ensures Looping(states[m], k)
  {
    var keeps := (s: Sys) => Looping(s, k);
    forall i | n <= i < m && keeps(states[i]) ensures keeps(states[i + 1]) {
      StaysLooping(states[i], steps[i], states[i + 1], k);
    }
    AlongPath(keeps, states, n, m);
  }

  // ---- a leaked lock

  /** What needs the write lock to change. */
  ghost predicate Frozen(s: Sys, t: Sys) {
    t.room.abort == s.room.abort && t.pending == s.pending && t.ids == s.ids
    && t.room.connectedIndex == s.room.connectedIndex && t.room.joinedCountIndex == s.room.joinedCountIndex
    && t.room.peerServerIndex == s.room.peerServerIndex
    && t.room.inTracksReadyCount == s.room.inTracksReadyCount
    && t.room.outTracksReadyCount == s.room.outTracksReadyCount
    && t.room.pipelineStartCount == s.room.pipelineStartCount && t.room.started == s.room.started
    && |t.peers| == |s.peers| && |t.slices| == |s.slices|
  }

  lemma LeakedAdvance(s: Sys, k: nat, alt: bool)
    requires Enabled(s, Advance(k, alt)) && s.room.abort == LockLeaked
    ensures Frozen(s, Advanced(s, k, alt))
  {
    assert RoomAfter(s.room, s.slices[k].pc) == s.room;
  }

  lemma LeakedTimer(r: Room, step: Step)
    requires TimerReady(r, step) && r.abort == LockLeaked
    ensures var t := TimerNext(r, step);
            t == r.(doneCh := t.doneCh, ready := t.ready, graceful := t.graceful,
                    deleted := t.deleted, erased := t.erased)
  {
  }

  lemma LeakFreezes(s: Sys, step: Step)
    requires Enabled(s, step) && s.room.abort == LockLeaked
    ensures Frozen(s, Next(s, step))
  {
    match step
    case Advance(k, alt) => LeakedAdvance(s, k, alt);
    case Read(_) =>
    case Watch(_, _) =>
    case Close(_) =>
    case _ => LeakedTimer(s.room, step);
  }

  lemma FollowsFrozen(s: Sys, step: Step, t: Sys)
    requires Follows(s, step, t) && s.room.abort == LockLeaked
    ensures Frozen(s, t)
  {
    LeakFreezes(s, step);
  }

  lemma FrozenOn(s: Sys, t: Sys, u: Sys)
    requires Frozen(s, t) && Frozen(t, u)
    ensures Frozen(s, u)
  {
  }

  /** Once abortCountdown has left with its read lock, nobody joins, connects, leaves or is
      counted any more, whatever runs on. */
  lemma {:induction false} LeakedLockFreezes(states: seq<Sys>, steps: seq<Step>, n: nat, m: nat)
    requires Path(states, steps) && n <= m < |states| && states[n].room.abort == LockLeaked
    ensures Frozen(states[n], states[m])
  {
    var s := states[n];
    var keeps := (t: Sys) => Frozen(s, t);
    forall i | n <= i < m && keeps(states[i]) ensures keeps(states[i + 1]) {
      FollowsFrozen(states[i], steps[i], states[i + 1]);
      FrozenOn(s, states[i], states[i + 1]);
    }
    AlongPath(keeps, states, n, m);
  }

  // ---- goroutines and counters

  /** outTracksReadyCount is the number of slice goroutines between its increment and its
      decrement, so never negative; and such a slice is in the mixer's index, under its own
      id, until its own removal. */
  lemma OutCountIsGoroutines(states: seq<Sys>, steps: seq<Step>, n: nat)
    requires Run(states, steps) && n < |states|
    ensures var s := states[n];
            s.room.outTracksReadyCount == Count(s.slices, IsOut)
            && forall k :: 0 <= k < |s.slices| && IsOut(s.slices[k]) && s.slices[k].pc != Dec ==>
                 s.slices[k].id in s.index && s.index[s.slices[k].id] == k
  {
    ReachableInv(states, steps, n);
    OutSlicesIndexed(states[n]);
  }

  lemma OutSlicesIndexed(s: Sys)
    requires Indexed(s)
    ensures forall k :: 0 <= k < |s.slices| && IsOut(s.slices[k]) && s.slices[k].pc != Dec ==>
              s.slices[k].id in s.index && s.index[s.slices[k].id] == k
  {
    forall k | 0 <= k < |s.slices| && IsOut(s.slices[k]) && s.slices[k].pc != Dec ensures IsIndexed(s.slices[k]) {
    }
  }

  /** Every pipeline starts and stops at most once, and starts exactly when all its outputs
      are bound. Unless it is an audio-only one that was given a video slice, it stops only
      when all its slices have left their loops and is pushed to only in between. */
  lemma PipelineDiscipline(states: seq<Sys>, steps: seq<Step>, n: nat, p: nat)
    requires Run(states, steps) && n < |states| && p < |states[n].peers|
    ensures var s := states[n];
            var pipe := s.peers[p].pipe;
            Starts(pipe.log) == One(AllBound(pipe)) && Stops(pipe.log) <= Starts(pipe.log)
            && (!Misfit(pipe, Video in s.peers[p].tracks) ==>
                  StageOf(pipe.log) != Broken
                  && (forall k :: 0 <= k < |s.slices| && s.slices[k].peer == p ==>
                        InStep(s.slices[k], StageOf(pipe.log))))
  {
    ReachableInv(states, steps, n);
    var s := states[n];
    assert PipeGood(s.peers[p], s.slices);
    if !Misfit(s.peers[p].pipe, Video in s.peers[p].tracks) {
      forall k | 0 <= k < |s.slices| && s.slices[k].peer == p
        ensures InStep(s.slices[k], StageOf(s.peers[p].pipe.log))
      {
        SliceInStep(s, k);
      }
    }
  }

  /** Pushing only while the pipeline plays; bound and not out of its loop only before it
      stops. */
  ghost predicate InStep(x: Slice, stage: Stage) {
    (x.pc == Reading ==> stage == Playing)
    && (stage == Stopped ==> HasStopped(x) || !HasBound(x))
  }

  lemma SliceInStep(s: Sys, k: nat)
    requires Shape(s) && Pipes(s) && k < |s.slices| && s.slices[k].peer < |s.peers|
    requires var peer := s.peers[s.slices[k].peer]; !Misfit(peer.pipe, Video in peer.tracks)
    ensures InStep(s.slices[k], StageOf(s.peers[s.slices[k].peer].pipe.log))
  {
    var x := s.slices[k];
    var peer := s.peers[x.peer];
    assert SliceShape(s, x, k) && StartSeen(s, x) && PipeGood(peer, s.slices);
    assert KindIs(peer, x.kind, s.slices, HasStopped) == HasStopped(x);
    assert KindIs(peer, x.kind, s.slices, HasBound) == HasBound(x);
  }

  lemma {:induction false} StageByCounts(log: seq<GstEvent>)
    requires StageOf(log) != Broken
    ensures StageOf(log) == Idle <==> Starts(log) == 0
    ensures StageOf(log) == Stopped <==> Stops(log) == 1
    ensures Stops(log) <= 1
    decreases |log|
  {
    if log != [] {
      var front, e := log[..|log| - 1], log[|log| - 1];
      assert log == front + [e];
      StageByCounts(front);
      StageOfSnoc(front, e);
      CountsSnoc(front, e);
    }
  }

  lemma BindKeepsOrder(p: Pipe, kind: Kind)
    requires StageOf(p.log) != Broken && (StageOf(p.log) == Idle <==> p.startedCh == 0)
    requires p.startedCh == One(AllBound(p)) && !(if kind == Audio then p.audioOutput else p.videoOutput)
    ensures StageOf(BindTrackAutoStart(p, kind).log) != Broken
  {
    StageOfSnoc(p.log, GstStart);
  }

  lemma StopKeepsOrder(p: Pipe)
    requires StageOf(p.log) != Broken && StageOf(p.log) != Idle
    requires StageOf(p.log) == Stopped <==> p.stoppedCount >= Buffers(p)
    ensures StageOf(StopPipe(p).log) != Broken
  {
    StageOfSnoc(p.log, GstStop);
  }

  lemma PushKeepsOrderIff(p: Pipe, kind: Kind)
    requires StageOf(p.log) != Broken && StageOf(p.log) != Idle
    ensures StageOf(PushRTP(p, kind).log) == Broken <==> StageOf(p.log) == Stopped
  {
    StageOfSnoc(p.log, Push(kind));
  }

  lemma PipeBreaksIff(p: Pipe, x: Slice, alt: bool)
    requires StageOf(p.log) != Broken && Starts(p.log) == p.startedCh == One(AllBound(p))
    requires Stops(p.log) == One(p.stoppedCount >= Buffers(p))
    requires x.pc == Bind ==> !(if x.kind == Audio then p.audioOutput else p.videoOutput)
    requires x.pc == Reading || x.pc == Closing ==> p.startedCh == 1
    ensures StageOf(PipeAfter(p, x, alt).log) == Broken <==> x.pc == Reading && !alt && Stops(p.log) == 1
  {
    StageByCounts(p.log);
    if x.pc == Bind {
      BindKeepsOrder(p, x.kind);
    } else if x.pc == Closing {
      StopKeepsOrder(p);
    } else if x.pc == Reading {
      PushKeepsOrderIff(p, x.kind);
    }
  }

  /** What breaks the discipline of a pipeline, misfit or not, is exactly a push after its
      stop. */
  lemma BreaksIff(s: Sys, k: nat, alt: bool)
    requires Inv(s) && Enabled(s, Advance(k, alt))
    requires StageOf(s.peers[s.slices[k].peer].pipe.log) != Broken
    ensures var p := s.slices[k].peer;
            StageOf(Advanced(s, k, alt).peers[p].pipe.log) == Broken
            <==> s.slices[k].pc == Reading && !alt && Stops(s.peers[p].pipe.log) == 1
  {
    PipeFacts(s, k);
    PipeBreaksIff(s.peers[s.slices[k].peer].pipe, s.slices[k], alt);
  }

  lemma PipeFacts(s: Sys, k: nat)
    requires Shape(s) && Pipes(s) && k < |s.slices| && s.slices[k].peer < |s.peers|
    ensures var x := s.slices[k];
            var p := s.peers[x.peer].pipe;
            Starts(p.log) == p.startedCh == One(AllBound(p))
            && Stops(p.log) == One(p.stoppedCount >= Buffers(p))
            && (x.pc == Bind ==> !(if x.kind == Audio then p.audioOutput else p.videoOutput))
            && (x.pc == Reading || x.pc == Closing ==> p.startedCh == 1)
  {
    var x := s.slices[k];
    var peer := s.peers[x.peer];
    assert PipeGood(peer, s.slices) && StartSeen(s, x) && SliceShape(s, x, k);
    assert KindIs(peer, x.kind, s.slices, HasBound) == HasBound(x);
  }

  /** In every reachable state, every user's accepted joins are her joined count, and her
      effective disconnections plus one if connected; no more users than the size ever
      joined; and no room is left behind: a room not deleted is ready, or stopping, or has a
      connected user. */
  lemma MembershipAndPresence(states: seq<Sys>, steps: seq<Step>, n: nat, u: UserId)
    requires Run(states, steps) && n < |states|
    ensures var r := states[n].room;
            Accepts(r.log, u) == JoinedCount(r, u) == Leaves(r.log, u) + One(IsConnected(r, u))
            && 1 <= |r.connectedIndex| <= r.size <= MAX_SIZE
            && r.joinedCountIndex.Keys == r.connectedIndex.Keys
            && (r.deleted || r.ready || Stopping(r) || exists w :: IsConnected(r, w))
            && r.erased == One(r.deleted)
  {
    ReachableInv(states, steps, n);
    var r := states[n].room;
    assert MemberCounts(r, u);
    if ConnectedUsers(r) != {} {
      var w :| w in ConnectedUsers(r);
      assert IsConnected(r, w);
    }
  }

  /** When the look at the fired abort timer decides to abort, the room was never ready or
      its graceful end has come; when it finds the room ready and running, the read lock is
      never released. */
  lemma AbortDecision(states: seq<Sys>, steps: seq<Step>, n: nat)
    requires Run(states, steps) && n < |steps| && steps[n] == AbortChecks
    ensures var r, t := states[n].room, states[n + 1].room;
            (t.abort == Decided <==> r.readyCh == 0 || r.doneCh == 1)
            && (t.abort == LockLeaked <==> r.readyCh == 1 && r.doneCh == 0)
  {
    ReachableInv(states, steps, n);
    assert Follows(states[n], steps[n], states[n + 1]);
    AbortLookIff(states[n].room);
  }

  /** Some user's entry, not of peer server p, is gone. */
  ghost predicate DropsAnother(s: Sys, t: Sys, p: nat) {
    exists w :: w in s.room.peerServerIndex && w !in t.room.peerServerIndex && s.room.peerServerIndex[w] != p
  }

  /** Disconnecting is keyed by the user: over every run, closing a peer server drops the
      entry of another one exactly when its user is connected and indexed under a peer server
      made after it. */
  lemma StaleDisconnectIff(states: seq<Sys>, steps: seq<Step>, n: nat)
    requires Run(states, steps) && n < |steps| && steps[n].Disconnect?
    ensures var s, t, p := states[n], states[n + 1], steps[n].p;
            p < |s.peers|
            && (DropsAnother(s, t, p)
                <==> IsConnected(s.room, s.peers[p].userId) && s.peers[p].userId in s.room.peerServerIndex
                     && exists q :: p < q < |s.peers| && s.peers[q].userId == s.peers[p].userId)
  {
    ReachableLatest(states, steps, n);
    assert Follows(states[n], steps[n], states[n + 1]);
    StaleDisconnectStep(states[n], steps[n].p, states[n + 1]);
  }

  lemma StaleDisconnectStep(s: Sys, p: nat, t: Sys)
    requires LatestIndexed(s) && p < |s.peers| && t.room == DisconnectUser(s.room, s.peers[p].userId)
    ensures DropsAnother(s, t, p)
       <==> IsConnected(s.room, s.peers[p].userId) && s.peers[p].userId in s.room.peerServerIndex
            && exists q :: p < q < |s.peers| && s.peers[q].userId == s.peers[p].userId
  {
    var u := s.peers[p].userId;
    DisconnectPeers(s.room, u);
    if u in s.room.peerServerIndex {
      assert IsLatest(s.peers, u, s.room.peerServerIndex[u]);
    }
  }

  predicate IsDec(x: Slice) {
    x.pc == Dec
  }

  /** In particular the signaling pass asked for when outTracksReadyCount reaches the needed
      number finds at least as many tracks in the index, but for slices about to end. */
  lemma IndexCoversOutCount(states: seq<Sys>, steps: seq<Step>, n: nat)
    requires Run(states, steps) && n < |states|
    ensures |states[n].index| + Count(states[n].slices, IsDec) >= states[n].room.outTracksReadyCount
  {
    ReachableInv(states, steps, n);
    IndexCovers(states[n]);
  }

  /** A slice about to count itself out asks for a signaling pass exactly when it makes the
      number of slice goroutines past that point the needed one, or even in a ready room; the
      tracks of those goroutines are then in the index the pass will walk. */
  lemma PassRequestedIff(states: seq<Sys>, steps: seq<Step>, n: nat, k: nat)
    requires Run(states, steps) && n < |steps| && steps[n] == Advance(k, false)
    requires k < |states[n].slices| && states[n].slices[k].pc == OutCount
    ensures var r, t := states[n].room, states[n + 1];
            var out := Count(t.slices, IsOut);
            (CountOutTrack(r).1 <==> out == r.neededTracks || (r.ready && out % 2 == 0))
            && |t.index| + Count(t.slices, IsDec) >= out
  {
    IndexCoversOutCount(states, steps, n + 1);
    ReachableInv(states, steps, n + 1);
    assert Follows(states[n], steps[n], states[n + 1]);
    assert states[n + 1].room == CountOutTrack(states[n].room).0;
  }

  lemma IndexCovers(s: Sys)
    requires Indexed(s) && DistinctIds(s.slices)
    ensures |s.index| + Count(s.slices, IsDec) >= Count(s.slices, IsOut)
  {
    var n := |s.slices|;
    OutIdsCount(s.slices);
    OutSlicesIndexed(s);
    CardinalityLe(OutIds(s.slices), s.index.Keys);
    assert |s.index| == |s.index.Keys|;
  }

  ghost function OutIds(slices: seq<Slice>): set<TrackId> {
    set k | 0 <= k < |slices| && IsOut(slices[k]) && slices[k].pc != Dec :: slices[k].id
  }

  lemma CardinalityLe(a: set<TrackId>, b: set<TrackId>)
    requires a <= b
    ensures |a| <= |b|
  {
    assert b == a + (b - a);
  }

  lemma {:induction false} OutIdsCount(slices: seq<Slice>)
    requires DistinctIds(slices)
    ensures |OutIds(slices)| + Count(slices, IsDec) == Count(slices, IsOut)
    decreases |slices|
  {
    if slices != [] {
      var front, x := slices[..|slices| - 1], slices[|slices| - 1];
      OutIdsCount(front);
      OutIdsSnoc(front, x);
      assert slices == front + [x];
      CountSnoc(front, x, IsDec);
      CountSnoc(front, x, IsOut);
      FreshOutId(front, x);
    }
  }

  lemma FreshOutId(front: seq<Slice>, x: Slice)
    requires DistinctIds(front + [x])
    ensures x.id !in OutIds(front)
  {
    var all := front + [x];
    forall k | 0 <= k < |front| ensures front[k].id != x.id {
      assert all[k] == front[k] && all[|front|] == x;
    }
  }

  lemma OutIdsSnoc(front: seq<Slice>, x: Slice)
    ensures OutIds(front + [x]) == OutIds(front) + if IsOut(x) && x.pc != Dec then {x.id} else {}
  {
    var all := front + [x];
    forall id | id in OutIds(front) ensures id in OutIds(all) {
      var k :| 0 <= k < |front| && IsOut(front[k]) && front[k].pc != Dec && front[k].id == id;
      assert all[k] == front[k];
    }
    if IsOut(x) && x.pc != Dec {
      assert all[|front|] == x;
    }
  }

  // ---- deletion by timers alone

  ghost predicate TimerPath(s: Sys, states: seq<Sys>, steps: seq<Step>) {
    Path(states, steps) && states[0] == s && forall n :: 0 <= n < |steps| ==> IsTimer(steps[n])
  }

  ghost predicate TimersCanDelete(s: Sys) {
    exists states: seq<Sys>, steps: seq<Step> :: TimerPath(s, states, steps) && states[|steps|].room.deleted
  }

  /** A room on which no timer will ever act again in time: ready, never started, and not
      already aborting. */
  predicate Lingers(r: Room) {
    !r.deleted && r.ready && !r.started && r.abort !in {Decided, AbortSleeping}
  }

  function AbortRank(a: AbortTimer): nat {
    match a
    case Armed => 4
    case Expired => 3
    case Decided => 2
    case AbortSleeping => 1
    case _ => 0
  }

  function GracefulRank(g: GracefulTimer): nat {
    match g
    case Counting => 2
    case GracefulSleeping => 1
    case _ => 0
  }

  /** The timer step that brings the deletion nearer. */
  function DeletionStep(r: Room): Step {
    if r.abort == Armed then AbortExpires
    else if r.abort == Expired && !r.ready then AbortChecks
    else if r.abort == Decided then AbortStops
    else if r.abort == AbortSleeping then AbortDeletes
    else if r.graceful == Counting then GracefulStops
    else GracefulDeletes
  }

  lemma DeletionStepWorks(r: Room)
    requires Channels(r) && Timers(r) && DeletionOwned(r) && !r.deleted && !Lingers(r)
    ensures var step := DeletionStep(r);
            TimerReady(r, step) && IsTimer(step)
            && !Lingers(TimerNext(r, step))
            && AbortRank(TimerNext(r, step).abort) + GracefulRank(TimerNext(r, step).graceful)
               < AbortRank(r.abort) + GracefulRank(r.graceful)
  {
  }

  lemma DeletionFollows(s: Sys) returns (t: Sys)
    requires Inv(s) && !s.room.deleted && !Lingers(s.room)
    ensures Follows(s, DeletionStep(s.room), t) && IsTimer(DeletionStep(s.room))
    ensures Inv(t) && !Lingers(t.room)
    ensures AbortRank(t.room.abort) + GracefulRank(t.room.graceful)
            < AbortRank(s.room.abort) + GracefulRank(s.room.graceful)
  {
    DeletionStepWorks(s.room);
    StepInv(s, DeletionStep(s.room));
    t := Next(s, DeletionStep(s.room));
  }

  lemma {:induction false} DeletionPath(s: Sys) returns (states: seq<Sys>, steps: seq<Step>)
    requires Inv(s) && !Lingers(s.room)
    ensures TimerPath(s, states, steps) && states[|steps|].room.deleted
    decreases AbortRank(s.room.abort) + GracefulRank(s.room.graceful)
  {
    if s.room.deleted {
      states, steps := [s], [];
    } else {
      var t := DeletionFollows(s);
      var rest, after := DeletionPath(t);
      states, steps := [s] + rest, [DeletionStep(s.room)] + after;
      TimerPathCons(s, DeletionStep(s.room), t, rest, after);
    }
  }

  lemma TimerPathCons(s: Sys, step: Step, t: Sys, states: seq<Sys>, steps: seq<Step>)
    requires TimerPath(t, states, steps) && Follows(s, step, t) && IsTimer(step)
    ensures TimerPath(s, [s] + states, [step] + steps)
    ensures ([s] + states)[|[step] + steps|] == states[|steps|]
  {
    var ss, ts := [s] + states, [step] + steps;
    forall n | 0 <= n < |ts| ensures Follows(ss[n], ts[n], ss[n + 1]) && IsTimer(ts[n]) {
      if n > 0 {
        assert Follows(states[n - 1], steps[n - 1], states[n]);
      }
    }
  }

  lemma LingeringStep(s: Sys, step: Step, t: Sys)
    requires Channels(s.room) && Lingers(s.room) && IsTimer(step) && Follows(s, step, t)
    ensures Lingers(t.room)
  {
  }

  lemma PathChannels(states: seq<Sys>, steps: seq<Step>, n: nat)
    requires Path(states, steps) && n < |states| && Inv(states[0])
    ensures Channels(states[n].room)
  {
    PathInv(states, steps, n);
  }

  lemma {:induction false} LingeringStays(states: seq<Sys>, steps: seq<Step>, n: nat)
    requires Path(states, steps) && n < |states| && Lingers(states[0].room)
    requires forall m :: 0 <= m < |steps| ==> IsTimer(steps[m])
    requires forall m :: 0 <= m < |states| ==> Channels(states[m].room)
    ensures Lingers(states[n].room)
  {
    if n > 0 {
      LingeringStays(states, steps, n - 1);
      LingeringStep(states[n - 1], steps[n - 1], states[n]);
    }
  }

  /** A room reaches deletion by timer steps alone exactly when it is deleted already, or not
      ready, or started, or already aborting: a room that got ready but never started is
      never deleted by its timers. In particular every started room is. */
  lemma TimersDeleteIff(s: Sys)
    requires Inv(s)
    ensures TimersCanDelete(s) <==> !Lingers(s.room)
  {
    if Lingers(s.room) {
      forall states: seq<Sys>, steps: seq<Step> | TimerPath(s, states, steps) ensures !states[|steps|].room.deleted {
        forall m | 0 <= m < |states| ensures Channels(states[m].room) {
          PathChannels(states, steps, m);
        }
        LingeringStays(states, steps, |steps|);
      }
    } else {
      var states, steps := DeletionPath(s);
      assert TimerPath(s, states, steps);
    }
  }

  // ---- teardown

  /** Steps the goroutines take on their own. The others come from outside: joins, tracks,
      packets, and closes caused by a client or its connection. */
  predicate Internal(step: Step) {
    IsTimer(step) || step.Advance? || step.Watch? || step.Disconnect?
  }

  function SliceRank(x: Slice): nat {
    match x.pc
    case InCheck => 13
    case InCount => 12
    case Create => 11
    case Waiting => 10
    case OutCount => 9
    case Bind => 8
    case AwaitStart => 7
    case StartCall => 6
    case Reading => 5
    case Select => 4
    case Closing => 3
    case Removing => 2
    case Dec => 1
    case _ => 0
  }

  function PeerRank(p: Peer): nat {
    2 * One(p.watching) + One(p.disconnecting)
  }

  /** What is left to do for the goroutines on their own. */
  function Work(s: Sys): nat {
    4 * Sum(s.slices, SliceRank) + Sum(s.peers, PeerRank) + AbortRank(s.room.abort) + GracefulRank(s.room.graceful)
  }

  lemma AdvanceRanks(r: Room, peer: Peer, x: Slice, alt: bool)
    requires CanAdvance(r, peer, x.pc, alt)
    ensures SliceRank(SliceAfter(r, x, alt)) < SliceRank(x)
  {
  }

  lemma RoomAfterRanks(r: Room, pc: Pc)
    ensures AbortRank(RoomAfter(r, pc).abort) <= AbortRank(r.abort)
    ensures GracefulRank(RoomAfter(r, pc).graceful) <= GracefulRank(r.graceful) + 2
  {
    CountRanks(r);
    StartRanks(r);
  }

  lemma CountRanks(r: Room)
    ensures AbortRank(CountInTrack(r).abort) <= AbortRank(r.abort) && CountInTrack(r).graceful == r.graceful
    ensures CountOutTrack(r).0.abort == r.abort && CountOutTrack(r).0.graceful == r.graceful
    ensures DropOutTrack(r).abort == r.abort && DropOutTrack(r).graceful == r.graceful
  {
  }

  lemma StartRanks(r: Room)
    ensures Start(r).abort == r.abort && GracefulRank(Start(r).graceful) <= GracefulRank(r.graceful) + 2
  {
  }

  lemma TimerRanks(r: Room, step: Step)
    requires TimerReady(r, step)
    ensures AbortRank(TimerNext(r, step).abort) + GracefulRank(TimerNext(r, step).graceful)
            < AbortRank(r.abort) + GracefulRank(r.graceful)
  {
  }

  lemma AdvanceWork(s: Sys, k: nat, alt: bool)
    requires Enabled(s, Advance(k, alt))
    ensures Work(Advanced(s, k, alt)) < Work(s)
  {
    var x, t := s.slices[k], Advanced(s, k, alt);
    AdvanceRanks(s.room, s.peers[x.peer], x, alt);
    RoomAfterRanks(s.room, x.pc);
    SumUpdate(s.slices, k, SliceAfter(s.room, x, alt), SliceRank);
    SumUpdate(s.peers, x.peer, t.peers[x.peer], PeerRank);
  }

  lemma DisconnectRanks(r: Room, u: UserId)
    ensures AbortRank(DisconnectUser(r, u).abort) <= AbortRank(r.abort)
    ensures DisconnectUser(r, u).graceful == r.graceful
  {
  }

  /** Every step the goroutines take on their own leaves less to do. */
  lemma WorkDecreases(s: Sys, step: Step)
    requires Enabled(s, step) && Internal(step)
    ensures Work(Next(s, step)) < Work(s)
  {
    match step
    case Advance(k, alt) => AdvanceWork(s, k, alt);
    case Watch(p, alt) => SumUpdate(s.peers, p, Next(s, step).peers[p], PeerRank);
    case Disconnect(p) =>
      DisconnectRanks(s.room, s.peers[p].userId);
      SumUpdate(s.peers, p, Next(s, step).peers[p], PeerRank);
    case _ => TimerRanks(s.room, step);
  }

  /** So without new joins, tracks, packets and outside closes everything comes to rest, in
      at most as many steps as there is work left. */
  lemma {:induction false} RestIsReached(states: seq<Sys>, steps: seq<Step>, n: nat)
    requires Path(states, steps) && n <= |steps|
    requires forall m :: 0 <= m < |steps| ==> Internal(steps[m])
    ensures Work(states[n]) + n <= Work(states[0])
  {
    if n > 0 {
      RestIsReached(states, steps, n - 1);
      assert Follows(states[n - 1], steps[n - 1], states[n]);
      WorkDecreases(states[n - 1], steps[n - 1]);
    }
  }

  ghost predicate AtRest(s: Sys) {
    forall step :: Internal(step) ==> !Enabled(s, step)
  }

  /** A slice that never ends because its pipeline lacks the other track. */
  predicate Stranded(x: Slice) {
    x.pc == AwaitStart
  }

  /** Where slices can be at rest. */
  ghost predicate RestingSlice(s: Sys, x: Slice) {
    x.peer < |s.peers|
    && (x.pc in {Exited, Failed, Aborted}
        || (x.pc == Waiting && s.room.readyCh == 0 && s.room.abortedCh == 0)
        || (x.pc == AwaitStart && s.peers[x.peer].pipe.startedCh == 0)
        || (x.pc == Select && s.peers[x.peer].doneCh == 0))
  }

  lemma PcAtRest(r: Room, peer: Peer, pc: Pc)
    requires CanWrite(r) && !CanAdvance(r, peer, pc, false) && !CanAdvance(r, peer, pc, true)
    ensures pc in {Exited, Failed, Aborted}
            || (pc == Waiting && r.readyCh == 0 && r.abortedCh == 0)
            || (pc == AwaitStart && peer.pipe.startedCh == 0)
            || (pc == Select && peer.doneCh == 0)
  {
  }

  lemma SliceAtRest(s: Sys, k: nat)
    requires Shape(s) && AtRest(s) && CanWrite(s.room) && k < |s.slices|
    ensures RestingSlice(s, s.slices[k])
  {
    assert SliceShape(s, s.slices[k], k);
    assert !Enabled(s, Advance(k, false));
    assert !Enabled(s, Advance(k, true));
    PcAtRest(s.room, s.peers[s.slices[k].peer], s.slices[k].pc);
  }

  ghost predicate Ended(r: Room) {
    r.doneCh == 1 || r.abortedCh == 1
  }

  lemma PeerAtRest(s: Sys, p: nat)
    requires Sessions(s) && AtRest(s) && CanWrite(s.room) && p < |s.peers| && Ended(s.room)
    ensures s.peers[p].closed && s.peers[p].doneCh == 1 && !s.peers[p].watching && !s.peers[p].disconnecting
  {
    assert Session(s.peers[p]);
    assert !Enabled(s, Disconnect(p));
    assert !Enabled(s, Watch(p, false));
  }

  lemma RestingBound(s: Sys, x: Slice)
    requires RestingSlice(s, x) && HasBound(x)
    requires s.peers[x.peer].pipe.startedCh == 1 && s.peers[x.peer].doneCh == 1
    ensures HasStopped(x)
  {
  }

  lemma KindAtRest(s: Sys, p: nat, kind: Kind)
    requires Shape(s) && p < |s.peers| && kind in s.peers[p].tracks
    requires forall k :: 0 <= k < |s.slices| ==> RestingSlice(s, s.slices[k])
    requires s.peers[p].pipe.startedCh == 1 && s.peers[p].doneCh == 1
    ensures KindIs(s.peers[p], kind, s.slices, HasBound) ==> KindIs(s.peers[p], kind, s.slices, HasStopped)
  {
    assert TrackShape(s, p, kind);
    var x := s.slices[s.peers[p].tracks[kind]];
    if HasBound(x) {
      RestingBound(s, x);
    }
  }

  /** A pipeline that has started has all the slices it waits for bound, so none of them is
      stranded. */
  lemma PipeAtRest(s: Sys, p: nat)
    requires SlicesInv(s) && AtRest(s) && CanWrite(s.room) && p < |s.peers| && Ended(s.room)
    requires s.peers[p].pipe.startedCh == 1
    ensures PipeEnded(s.peers[p])
  {
    var peer := s.peers[p];
    PeerAtRest(s, p);
    forall k | 0 <= k < |s.slices| ensures RestingSlice(s, s.slices[k]) {
      SliceAtRest(s, k);
    }
    if Audio in peer.tracks {
      KindAtRest(s, p, Audio);
    }
    if Video in peer.tracks {
      KindAtRest(s, p, Video);
    }
    assert PipeGood(peer, s.slices);
  }

  /** Started once and stopped once; unless a misfit, with its whole log in order. */
  ghost predicate PipeEnded(peer: Peer) {
    Starts(peer.pipe.log) == 1 && Stops(peer.pipe.log) == 1
    && (!Misfit(peer.pipe, Video in peer.tracks) ==> StageOf(peer.pipe.log) == Stopped)
  }

  lemma RoomAtRest(s: Sys)
    requires Channels(s.room) && Timers(s.room) && AtRest(s) && Ended(s.room)
    ensures s.room.deleted && s.room.erased == 1
  {
    assert !Enabled(s, AbortDeletes) && !Enabled(s, GracefulDeletes);
  }

  /** A slice that could be created is still in the index exactly if its pipeline never started
      or it gave up waiting; and only a video slice of an audio-only pipeline gives up while its
      pipeline starts. */
  ghost predicate TornDownSlice(s: Sys, x: Slice) {
    x.peer < |s.peers|
    && x.pc in {Exited, Failed, Aborted, AwaitStart}
    && var peer := s.peers[x.peer];
       (x.id in s.index <==> x.pc != Failed && (peer.pipe.startedCh == 0 || x.pc == Aborted))
       && (x.pc == Aborted ==>
             peer.pipe.startedCh == 0 || (Misfit(peer.pipe, Video in peer.tracks) && x.kind == Video))
  }

  lemma RestingTornDown(s: Sys, x: Slice)
    requires RestingSlice(s, x) && s.peers[x.peer].doneCh == 1
    requires s.room.readyCh == 1 || s.room.abortedCh == 1
    ensures x.pc in {Exited, Failed, Aborted, AwaitStart}
    ensures x.pc == AwaitStart ==> s.peers[x.peer].pipe.startedCh == 0
    ensures IsOut(x) == Stranded(x)
  {
  }

  /** A slice that is not bound keeps its pipeline from starting. */
  lemma AbortedUnstarted(s: Sys, k: nat)
    requires Shape(s) && Pipes(s) && k < |s.slices| && s.slices[k].peer < |s.peers| && s.slices[k].pc == Aborted
    ensures var x := s.slices[k];
            var peer := s.peers[x.peer];
            peer.pipe.startedCh == 0 || (Misfit(peer.pipe, Video in peer.tracks) && x.kind == Video)
  {
    var x := s.slices[k];
    var peer := s.peers[x.peer];
    assert SliceShape(s, x, k) && PipeGood(peer, s.slices);
    assert KindIs(peer, x.kind, s.slices, HasBound) == HasBound(x);
  }

  lemma EndedSliceAtRest(s: Sys, k: nat)
    requires SlicesInv(s) && AtRest(s) && CanWrite(s.room) && k < |s.slices| && Ended(s.room)
    requires s.room.doneCh == 1 ==> s.room.readyCh == 1
    ensures TornDownSlice(s, s.slices[k]) && IsOut(s.slices[k]) == Stranded(s.slices[k])
  {
    RestingSliceEnds(s, k);
    IndexedIff(s, k);
    if s.slices[k].pc == Aborted {
      AbortedUnstarted(s, k);
    }
    if s.slices[k].pc == Exited {
      ExitedStarted(s, k);
    }
    TornDownWhen(s, s.slices[k]);
  }

  lemma ExitedStarted(s: Sys, k: nat)
    requires Pipes(s) && k < |s.slices| && s.slices[k].peer < |s.peers| && s.slices[k].pc == Exited
    ensures s.peers[s.slices[k].peer].pipe.startedCh == 1
  {
    assert StartSeen(s, s.slices[k]);
  }

  lemma TornDownWhen(s: Sys, x: Slice)
    requires x.peer < |s.peers| && x.pc in {Exited, Failed, Aborted, AwaitStart}
    requires x.id in s.index <==> IsIndexed(x)
    requires x.pc == AwaitStart ==> s.peers[x.peer].pipe.startedCh == 0
    requires x.pc == Exited ==> s.peers[x.peer].pipe.startedCh == 1
    requires var peer := s.peers[x.peer];
             x.pc == Aborted ==>
               peer.pipe.startedCh == 0 || (Misfit(peer.pipe, Video in peer.tracks) && x.kind == Video)
    ensures TornDownSlice(s, x)
  {
  }

  lemma RestingSliceEnds(s: Sys, k: nat)
    requires Shape(s) && Sessions(s) && AtRest(s) && CanWrite(s.room) && k < |s.slices| && Ended(s.room)
    requires s.room.doneCh == 1 ==> s.room.readyCh == 1
    ensures var x := s.slices[k];
            x.peer < |s.peers| && x.pc in {Exited, Failed, Aborted, AwaitStart}
            && (x.pc == AwaitStart ==> s.peers[x.peer].pipe.startedCh == 0)
            && IsOut(x) == Stranded(x)
  {
    SliceAtRest(s, k);
    PeerAtRest(s, s.slices[k].peer);
    RestingTornDown(s, s.slices[k]);
  }

  /** Everything an ended room leaves behind. */
  ghost predicate TornDown(s: Sys) {
    s.room.deleted && s.room.erased == 1
    && (forall p :: 0 <= p < |s.peers| ==>
          s.peers[p].closed && s.peers[p].doneCh == 1
          && (s.peers[p].pipe.startedCh == 1 ==> PipeEnded(s.peers[p])))
    && (forall k :: 0 <= k < |s.slices| ==> TornDownSlice(s, s.slices[k]))
    && s.room.outTracksReadyCount == Count(s.slices, Stranded)
  }

  /** Once the room has ended, gracefully or by abort, and its goroutines are at rest: the
      room is deleted; every peer server was closed exactly once; every pipeline that ever
      started was stopped exactly once; and a slice that could be created is still in the
      mixer's index exactly if its pipeline never started or it gave up waiting. */
  lemma TeardownComplete(s: Sys)
    requires Inv(s) && AtRest(s) && CanWrite(s.room) && Ended(s.room)
    ensures TornDown(s)
  {
    RoomAtRest(s);
    PeersTornDown(s);
    SlicesTornDown(s);
  }

  lemma PeersTornDown(s: Sys)
    requires SlicesInv(s) && AtRest(s) && CanWrite(s.room) && Ended(s.room)
    ensures forall p :: 0 <= p < |s.peers| ==>
              s.peers[p].closed && s.peers[p].doneCh == 1
              && (s.peers[p].pipe.startedCh == 1 ==> PipeEnded(s.peers[p]))
  {
    forall p | 0 <= p < |s.peers|
      ensures s.peers[p].closed && s.peers[p].doneCh == 1
      ensures s.peers[p].pipe.startedCh == 1 ==> PipeEnded(s.peers[p])
    {
      PeerAtRest(s, p);
      if s.peers[p].pipe.startedCh == 1 {
        PipeAtRest(s, p);
      }
    }
  }

  lemma SlicesTornDown(s: Sys)
    requires SlicesInv(s) && AtRest(s) && CanWrite(s.room) && Ended(s.room)
    requires s.room.doneCh == 1 ==> s.room.readyCh == 1
    ensures forall k :: 0 <= k < |s.slices| ==> TornDownSlice(s, s.slices[k])
    ensures s.room.outTracksReadyCount == Count(s.slices, Stranded)
  {
    forall k | 0 <= k < |s.slices|
      ensures TornDownSlice(s, s.slices[k]) && IsOut(s.slices[k]) == Stranded(s.slices[k])
    {
      EndedSliceAtRest(s, k);
    }
    CountAgree(s.slices, IsOut, Stranded);
  }

  /** At rest, whether the room has ended or was deleted as empty, a slice that could be
      created waits for ever exactly if the room was neither ever ready nor aborted. */
  lemma WaitingForeverIff(s: Sys, k: nat)
    requires Inv(s) && AtRest(s) && CanWrite(s.room) && k < |s.slices|
    ensures s.slices[k].pc == Waiting
       <==> s.room.readyCh == 0 && s.room.abortedCh == 0 && s.slices[k].pc != Failed
  {
    SliceAtRest(s, k);
    assert Phase(s.room, s.slices[k]);
  }

  // ---- teardown over whole runs

  /** An ended room stays ended, and its write lock stays available. */
  lemma EndedStays(s: Sys, step: Step)
    requires RoomInv(s.room) && Enabled(s, step) && Internal(step) && Ended(s.room) && CanWrite(s.room)
    ensures Ended(Next(s, step).room) && CanWrite(Next(s, step).room)
  {
    match step
    case Advance(k, _) => AdvanceEnds(s.room, s.slices[k].pc);
    case Disconnect(p) => DisconnectEnds(s.room, s.peers[p].userId);
    case Watch(_, _) =>
    case _ => TimerEnds(s.room, step);
  }

  lemma AdvanceEnds(r: Room, pc: Pc)
    requires Ended(r) && CanWrite(r)
    ensures Ended(RoomAfter(r, pc)) && CanWrite(RoomAfter(r, pc))
  {
  }

  lemma DisconnectEnds(r: Room, u: UserId)
    requires Ended(r) && CanWrite(r)
    ensures Ended(DisconnectUser(r, u)) && CanWrite(DisconnectUser(r, u))
  {
  }

  lemma TimerEnds(r: Room, step: Step)
    requires Channels(r) && Timers(r) && TimerReady(r, step) && Ended(r) && CanWrite(r)
    ensures Ended(TimerNext(r, step)) && CanWrite(TimerNext(r, step))
  {
  }

  ghost predicate InternalPath(states: seq<Sys>, steps: seq<Step>) {
    Path(states, steps) && forall m :: 0 <= m < |steps| ==> Internal(steps[m])
  }

  lemma FollowsEnded(s: Sys, step: Step, t: Sys)
    requires RoomInv(s.room) && Follows(s, step, t) && Internal(step) && Ended(s.room) && CanWrite(s.room)
    ensures Ended(t.room) && CanWrite(t.room)
  {
    EndedStays(s, step);
  }

  lemma {:induction false} EndedAlong(states: seq<Sys>, steps: seq<Step>, n: nat)
    requires InternalPath(states, steps) && n < |states|
    requires forall m :: 0 <= m < |states| ==> RoomInv(states[m].room)
    requires Ended(states[0].room) && CanWrite(states[0].room)
    ensures Ended(states[n].room) && CanWrite(states[n].room)
  {
    if n > 0 {
      EndedAlong(states, steps, n - 1);
      FollowsEnded(states[n - 1], steps[n - 1], states[n]);
    }
  }

  lemma PathRoomInv(states: seq<Sys>, steps: seq<Step>, n: nat)
    requires Path(states, steps) && n < |states| && Inv(states[0])
    ensures RoomInv(states[n].room)
  {
    PathInv(states, steps, n);
  }

  lemma EndedToTheEnd(states: seq<Sys>, steps: seq<Step>)
    requires InternalPath(states, steps) && Inv(states[0])
    requires Ended(states[0].room) && CanWrite(states[0].room)
    ensures Ended(states[|steps|].room) && CanWrite(states[|steps|].room)
  {
    forall m | 0 <= m < |states| ensures RoomInv(states[m].room) {
      PathRoomInv(states, steps, m);
    }
    EndedAlong(states, steps, |steps|);
  }

  /** From a reachable state in which the room has ended and no lock is leaked, every run of
      internal steps is finite, and every one that cannot go on has torn the room down. */
  lemma EveryMaximalRunTearsDown(states: seq<Sys>, steps: seq<Step>)
    requires |states| > 0 && Reachable(states[0]) && InternalPath(states, steps)
    requires Ended(states[0].room) && CanWrite(states[0].room)
    ensures |steps| <= Work(states[0])
    ensures AtRest(states[|steps|]) ==> TornDown(states[|steps|])
  {
    ReachableHasInv(states[0]);
    RestIsReached(states, steps, |steps|);
    PathInv(states, steps, |steps|);
    EndedToTheEnd(states, steps);
    if AtRest(states[|steps|]) {
      TeardownComplete(states[|steps|]);
    }
  }

  ghost predicate ReachesInternally(s: Sys, t: Sys) {
    exists states: seq<Sys>, steps: seq<Step> ::
      InternalPath(states, steps) && states[0] == s && states[|steps|] == t
  }

  lemma InternalNext(s: Sys, t: Sys, step: Step)
    requires ReachesInternally(s, t) && Enabled(t, step) && Internal(step)
    ensures ReachesInternally(s, Next(t, step))
  {
    var states: seq<Sys>, steps: seq<Step> :| InternalPath(states, steps) && states[0] == s && states[|steps|] == t;
    var longer, more := states + [Next(t, step)], steps + [step];
    PathSnoc(states, steps, step, Next(t, step));
    assert InternalPath(longer, more) && longer[0] == s;
  }

  /** Some run of internal steps does come to rest. */
  lemma {:induction false} RestExists(s: Sys, t: Sys) returns (rest: Sys)
    requires ReachesInternally(s, t)
    ensures ReachesInternally(s, rest) && AtRest(rest)
    decreases Work(t)
  {
    if AtRest(t) {
      rest := t;
    } else {
      var step :| Internal(step) && Enabled(t, step);
      WorkDecreases(t, step);
      InternalNext(s, t, step);
      rest := RestExists(s, Next(t, step));
    }
  }
}
