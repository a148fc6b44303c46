/** Lifecycle and signaling together: goroutines index and remove their slices and peers
    connect and leave (RoomSystem) while signaling runs on the same mixer and peer index
    (SignalingSystem). */
module Joint {
  import opened Base
  import opened PipelineProtocol
  import opened RoomSpec
  import Tracks
  import L = RoomSystem
  import S = SignalingSystem

  /** `asked` counts the goroutines launched to make a signaling pass that have not begun. */
  datatype Both = Both(room: L.Sys, sig: S.Sig, asked: nat)

  /** A slice that was indexed at some time. */
  predicate WasIndexed(x: L.Slice) {
    3 <= L.At(x.pc) <= 12 || x.pc == L.Aborted
  }

  ghost predicate Produced(r: L.Sys, id: TrackId) {
    exists k :: 0 <= k < |r.slices| && r.slices[k].id == id && WasIndexed(r.slices[k])
  }

  /** The two views of mixer and peer index agree. */
  ghost predicate Agree(r: L.Sys, g: S.Sig) {
    SamePeers(r, g) && SameTracks(r, g) && OwnersProduced(r, g)
  }

  ghost predicate SamePeers(r: L.Sys, g: S.Sig) {
    g.size == r.room.size && g.peers == r.room.peerServerIndex
    && |g.conns| == |r.peers|
    && forall p :: 0 <= p < |r.peers| ==> g.conns[p].userId == r.peers[p].userId
  }

  ghost predicate SameTracks(r: L.Sys, g: S.Sig) {
    g.index.Keys == r.index.Keys && forall id :: id in r.index ==> SameTrack(r, g, id)
  }

  /** Signaling's history holds only tracks of slices that were indexed. */
  ghost predicate OwnersProduced(r: L.Sys, g: S.Sig) {
    forall id :: id in g.owners ==> Produced(r, id)
  }

  ghost predicate SameTrack(r: L.Sys, g: S.Sig, id: TrackId) {
    id in r.index && id in g.index && r.index[id] < |r.slices|
    && r.slices[r.index[id]].peer < |r.peers|
    && g.index[id].owner == r.peers[r.slices[r.index[id]].peer].userId
    && g.index[id].kind == r.slices[r.index[id]].kind
  }

  ghost predicate Inv(b: Both) {
    L.Inv(b.room) && S.Inv(b.sig) && Agree(b.room, b.sig) && b.sig.deleted == b.room.room.deleted
  }

  /** Steps of signaling proper: the others are those of the lifecycle. */
  predicate SignalingOnly(step: S.Step) {
    !step.IndexSlice? && !step.RemoveSlice? && !step.ConnectPeer? && !step.DisconnectPeer? && !step.DeleteRoom?
  }

  /** How signaling sees a lifecycle step: a change of the mixer's index or of the peers, or
      nothing. */
  ghost function SeenAs(r: L.Sys, step: L.Step): Option<S.Step>
    requires L.Enabled(r, step)
  {
    match step
    case Advance(k, alt) =>
      var x := r.slices[k];
      if x.pc == L.Create && !alt then Some(S.IndexSlice(x.id, r.peers[x.peer].userId, x.kind))
      else if x.pc == L.Removing then Some(S.RemoveSlice(x.id))
      else None
    case NewPeer(user, _) => Some(S.ConnectPeer(user))
    case Disconnect(p) =>
      if IsConnected(r.room, r.peers[p].userId) then Some(S.DisconnectPeer(r.peers[p].userId)) else None
    case _ => None
  }

  ghost function Apply(g: S.Sig, step: Option<S.Step>): S.Sig
    requires step.Some? ==> S.Enabled(g, step.value)
  {
    if step.Some? then S.Next(g, step.value) else g
  }

  /** Signaling after a lifecycle step: it makes the step it sees, if any, and another one if
      the room is now deleted. */
  ghost function After(b: Both, step: L.Step): S.Sig
    requires L.Enabled(b.room, step)
    requires SeenAs(b.room, step).Some? ==> S.Enabled(b.sig, SeenAs(b.room, step).value)
  {
    var g := Apply(b.sig, SeenAs(b.room, step));
    if L.Next(b.room, step).room.deleted then S.Next(g, S.DeleteRoom) else g
  }

  /** A slice counts itself out, or someone leaves a room already deleted: the step asks for a
      signaling pass. */
  predicate Asks(r: L.Sys, step: L.Step) {
    match step
    case Advance(k, _) => k < |r.slices| && r.slices[k].pc == L.OutCount && CountOutTrack(r.room).1
    case Disconnect(p) => p < |r.peers| && IsConnected(r.room, r.peers[p].userId) && r.room.deleted
    case _ => false
  }

  ghost function LiveNext(b: Both, step: L.Step): Both
    requires L.Enabled(b.room, step)
    requires SeenAs(b.room, step).Some? ==> S.Enabled(b.sig, SeenAs(b.room, step).value)
  {
    Both(L.Next(b.room, step), After(b, step), b.asked + One(Asks(b.room, step)))
  }

  ghost function SignalNext(b: Both, step: S.Step): Both
    requires SignalEnabled(b, step)
  {
    b.(sig := S.Next(b.sig, step), asked := b.asked - One(step == S.PassBegin(false)))
  }

  /** A pass that is no retry was asked for. */
  ghost predicate SignalEnabled(b: Both, step: S.Step) {
    S.Enabled(b.sig, step) && SignalingOnly(step) && (step == S.PassBegin(false) ==> b.asked > 0)
  }

  /** A lifecycle step that touches mixer or peers waits for a running pass to end. */
  ghost predicate LifecycleEnabled(b: Both, step: L.Step) {
    L.Enabled(b.room, step) && (SeenAs(b.room, step).Some? ==> b.sig.pass.NoPass?)
  }

  lemma FreshTrack(r: L.Sys, g: S.Sig, k: nat)
    requires L.DistinctIds(r.slices) && OwnersProduced(r, g) && k < |r.slices| && r.slices[k].pc == L.Create
    ensures r.slices[k].id !in g.owners
  {
    assert forall j :: 0 <= j < |r.slices| && r.slices[j].id == r.slices[k].id ==> j == k;
  }

  /** What signaling sees of a lifecycle step is one of its own steps, and enabled: track ids
      are indexed once. */
  lemma SeenEnabled(b: Both, step: L.Step)
    requires L.DistinctIds(b.room.slices) && Agree(b.room, b.sig) && LifecycleEnabled(b, step)
    ensures SeenAs(b.room, step).Some? ==> S.Enabled(b.sig, SeenAs(b.room, step).value)
  {
    if step.Advance? && b.room.slices[step.k].pc == L.Create {
      FreshTrack(b.room, b.sig, step.k);
    }
  }

  lemma AdvanceWasIndexed(r: Room, peer: L.Peer, x: L.Slice, alt: bool)
    requires L.CanAdvance(r, peer, x.pc, alt)
    ensures WasIndexed(L.SliceAfter(r, x, alt)) <==> WasIndexed(x) || (x.pc == L.Create && !alt)
  {
  }

  /** The parts of the lifecycle that never change, and those that only grow. */
  ghost predicate StaticFrame(r: L.Sys, t: L.Sys) {
    t.room.size == r.room.size && t.room.peerServerIndex == r.room.peerServerIndex
    && |t.peers| == |r.peers| && |r.slices| <= |t.slices|
    && (forall p :: 0 <= p < |r.peers| ==> t.peers[p].userId == r.peers[p].userId)
    && forall k :: 0 <= k < |r.slices| ==> SameSlice(r.slices[k], t.slices[k])
  }

  ghost predicate SameSlice(x: L.Slice, y: L.Slice) {
    y.id == x.id && y.peer == x.peer && y.kind == x.kind && (WasIndexed(x) ==> WasIndexed(y))
  }

  lemma AdvanceStatic(r: L.Sys, k: nat, alt: bool)
    requires L.Enabled(r, L.Advance(k, alt))
    ensures StaticFrame(r, L.Advanced(r, k, alt))
  {
    var x := r.slices[k];
    AdvanceWasIndexed(r.room, r.peers[x.peer], x, alt);
    L.RoomAfterView(r.room, x.pc);
    assert SameSlice(x, L.SliceAfter(r.room, x, alt));
  }

  lemma TrackStays(r: L.Sys, g: S.Sig, t: L.Sys, h: S.Sig, id: TrackId)
    requires SameTrack(r, g, id) && StaticFrame(r, t)
    requires id in t.index && t.index[id] == r.index[id]
    requires id in h.index && h.index[id] == g.index[id]
    ensures SameTrack(t, h, id)
  {
    assert SameSlice(r.slices[r.index[id]], t.slices[r.index[id]]);
  }

  lemma ProducedStay(r: L.Sys, t: L.Sys, id: TrackId)
    requires Produced(r, id) && StaticFrame(r, t)
    ensures Produced(t, id)
  {
    var k :| 0 <= k < |r.slices| && r.slices[k].id == id && WasIndexed(r.slices[k]);
    assert SameSlice(r.slices[k], t.slices[k]);
    assert t.slices[k].id == id && WasIndexed(t.slices[k]);
  }

  lemma OwnersStay(r: L.Sys, t: L.Sys, g: S.Sig)
    requires OwnersProduced(r, g) && StaticFrame(r, t)
    ensures OwnersProduced(t, g)
  {
    forall id | id in g.owners ensures Produced(t, id) {
      ProducedStay(r, t, id);
    }
  }

  lemma PeersStay(r: L.Sys, t: L.Sys, g: S.Sig)
    requires SamePeers(r, g) && StaticFrame(r, t)
    ensures SamePeers(t, g)
  {
  }

  /** Steps that leave index and peer index alone. */
  lemma QuietAgrees(r: L.Sys, t: L.Sys, g: S.Sig)
    requires Agree(r, g) && StaticFrame(r, t) && t.index == r.index
    ensures Agree(t, g)
  {
    OwnersStay(r, t, g);
    PeersStay(r, t, g);
    forall id | id in t.index ensures SameTrack(t, g, id) {
      TrackStays(r, g, t, g, id);
    }
  }

  /** The slice as signaling first sees it. */
  function FirstSeen(r: L.Sys, x: L.Slice): Tracks.Slice
    requires x.peer < |r.peers|
  {
    Tracks.Slice(r.peers[x.peer].userId, x.kind, map[], 0)
  }

  lemma InsertedTracks(r: L.Sys, t: L.Sys, g: S.Sig, h: S.Sig, k: nat)
    requires SameTracks(r, g) && StaticFrame(r, t) && k < |r.slices| && r.slices[k].peer < |r.peers|
    requires t.index == r.index[r.slices[k].id := k]
    requires h.index == g.index[r.slices[k].id := FirstSeen(r, r.slices[k])]
    ensures SameTracks(t, h)
  {
    var x := r.slices[k];
    assert SameSlice(x, t.slices[k]);
    forall id | id in t.index ensures SameTrack(t, h, id) {
      if id != x.id {
        TrackStays(r, g, t, h, id);
      }
    }
  }

  lemma InsertAgrees(r: L.Sys, t: L.Sys, g: S.Sig, k: nat)
    requires Agree(r, g) && StaticFrame(r, t) && k < |r.slices| && r.slices[k].peer < |r.peers|
    requires WasIndexed(t.slices[k]) && t.index == r.index[r.slices[k].id := k]
    ensures var x := r.slices[k];
            Agree(t, g.(index := g.index[x.id := FirstSeen(r, x)], owners := g.owners[x.id := r.peers[x.peer].userId]))
  {
    var x := r.slices[k];
    var h := g.(index := g.index[x.id := FirstSeen(r, x)], owners := g.owners[x.id := r.peers[x.peer].userId]);
    InsertedTracks(r, t, g, h, k);
    PeersStay(r, t, g);
    OwnersStay(r, t, g);
    assert SameSlice(x, t.slices[k]);
    assert Produced(t, x.id);
  }

  lemma RemovedTracks(r: L.Sys, t: L.Sys, g: S.Sig, h: S.Sig, id: TrackId)
    requires SameTracks(r, g) && StaticFrame(r, t) && t.index == r.index - {id} && h.index == g.index - {id}
    ensures SameTracks(t, h)
  {
    forall x | x in t.index ensures SameTrack(t, h, x) {
      TrackStays(r, g, t, h, x);
    }
  }

  lemma RemoveAgrees(r: L.Sys, t: L.Sys, g: S.Sig, id: TrackId)
    requires Agree(r, g) && StaticFrame(r, t) && t.index == r.index - {id}
    ensures Agree(t, g.(index := g.index - {id}))
  {
    var h := g.(index := g.index - {id});
    OwnersStay(r, t, g);
    PeersStay(r, t, g);
    RemovedTracks(r, t, g, h, id);
    assert OwnersProduced(t, h) && SamePeers(t, h);
  }

  lemma ConnectAgrees(r: L.Sys, g: S.Sig, user: UserId, audioOnly: bool)
    requires Agree(r, g) && L.Enabled(r, L.NewPeer(user, audioOnly))
    ensures Agree(L.Next(r, L.NewPeer(user, audioOnly)),
                  g.(conns := g.conns + [Tracks.NewConn(user)], jobs := g.jobs + [S.NotBegun],
                     peers := g.peers[user := |g.conns|]))
  {
    var t := L.Next(r, L.NewPeer(user, audioOnly));
    var h := g.(conns := g.conns + [Tracks.NewConn(user)], jobs := g.jobs + [S.NotBegun],
                peers := g.peers[user := |g.conns|]);
    forall id | id in g.owners ensures Produced(t, id) {
      var k :| 0 <= k < |r.slices| && r.slices[k].id == id && WasIndexed(r.slices[k]);
      assert t.slices[k].id == id;
    }
    forall id | id in t.index ensures SameTrack(t, h, id) {
      assert SameTrack(r, g, id);
    }
  }

  lemma OtherPeersAgree(r: L.Sys, g: S.Sig, peers: map<UserId, nat>)
    requires Agree(r, g)
    ensures Agree(r.(room := r.room.(peerServerIndex := peers)), g.(peers := peers))
  {
    var t, h := r.(room := r.room.(peerServerIndex := peers)), g.(peers := peers);
    forall id | id in g.owners ensures Produced(t, id) {
      var k :| 0 <= k < |r.slices| && r.slices[k].id == id && WasIndexed(r.slices[k]);
      assert t.slices[k].id == id;
    }
    forall id | id in t.index ensures SameTrack(t, h, id) {
      assert SameTrack(r, g, id);
    }
  }

  lemma DisconnectAgrees(r: L.Sys, g: S.Sig, p: nat)
    requires Agree(r, g) && L.Enabled(r, L.Disconnect(p))
    ensures var u := r.peers[p].userId;
            Agree(L.Next(r, L.Disconnect(p)), if IsConnected(r.room, u) then g.(peers := g.peers - {u}) else g)
  {
    var u, t := r.peers[p].userId, L.Next(r, L.Disconnect(p));
    L.DisconnectPeers(r.room, u);
    var peers := t.room.peerServerIndex;
    OtherPeersAgree(r, g, peers);
    QuietAgrees(r.(room := r.room.(peerServerIndex := peers)), t, g.(peers := peers));
    assert g.(peers := g.peers) == g;
  }

  lemma OtherLifecycleAgrees(r: L.Sys, g: S.Sig, step: L.Step)
    requires Agree(r, g) && L.Enabled(r, step)
    requires !step.Advance? && !step.NewPeer? && !step.Disconnect?
    ensures Agree(L.Next(r, step), g)
  {
    if step.JoinUser? {
      L.JoinPeers(r.room, step.user);
    }
    L.TimerPeers(r.room, step);
    QuietAgrees(r, L.Next(r, step), g);
  }

  lemma SeenInv(b: Both, step: L.Step)
    requires S.Inv(b.sig) && L.Enabled(b.room, step)
    requires SeenAs(b.room, step).Some? ==> S.Enabled(b.sig, SeenAs(b.room, step).value)
    ensures S.Inv(Apply(b.sig, SeenAs(b.room, step)))
  {
    if SeenAs(b.room, step).Some? {
      S.StepInv(b.sig, SeenAs(b.room, step).value);
    }
  }

  lemma SignalingAfter(b: Both, step: L.Step)
    requires S.Inv(b.sig) && Agree(b.room, b.sig) && L.DistinctIds(b.room.slices) && LifecycleEnabled(b, step)
    requires SeenAs(b.room, step).Some? ==> S.Enabled(b.sig, SeenAs(b.room, step).value)
    ensures S.Inv(After(b, step)) && Agree(L.Next(b.room, step), After(b, step))
  {
    SeenInv(b, step);
    LifecycleAgrees(b, step);
    DeletionMade(b, step, Apply(b.sig, SeenAs(b.room, step)));
  }

  lemma RoomAfter(r: L.Sys, step: L.Step)
    requires L.Inv(r) && L.Enabled(r, step)
    ensures L.Inv(L.Next(r, step)) && L.SameRoom(r.room, L.Next(r, step).room)
  {
    L.StepInv(r, step);
    L.StepSameRoom(r, step);
  }

  /** Every lifecycle step keeps the two views in agreement, signaling making the step it
      sees. */
  lemma LifecycleInv(b: Both, step: L.Step)
    requires Inv(b) && LifecycleEnabled(b, step)
    ensures SeenAs(b.room, step).Some? ==> S.Enabled(b.sig, SeenAs(b.room, step).value)
    ensures Inv(LiveNext(b, step))
  {
    SeenEnabled(b, step);
    RoomAfter(b.room, step);
    SignalingAfter(b, step);
    DeletionNoted(b, step);
  }

  lemma DeletionMade(b: Both, step: L.Step, g: S.Sig)
    requires L.Enabled(b.room, step)
    requires SeenAs(b.room, step).Some? ==> S.Enabled(b.sig, SeenAs(b.room, step).value)
    requires g == Apply(b.sig, SeenAs(b.room, step)) && S.Inv(g) && Agree(L.Next(b.room, step), g)
    ensures S.Inv(After(b, step)) && Agree(L.Next(b.room, step), After(b, step))
  {
    S.StepInv(g, S.DeleteRoom);
    DeletionAgrees(L.Next(b.room, step), g);
  }

  lemma DeletionAgrees(r: L.Sys, g: S.Sig)
    requires Agree(r, g)
    ensures Agree(r, S.Next(g, S.DeleteRoom))
  {
    var h := S.Next(g, S.DeleteRoom);
    forall id | id in r.index ensures SameTrack(r, h, id) {
      assert SameTrack(r, g, id);
    }
  }

  lemma SeenDeletion(b: Both, step: L.Step)
    requires L.Enabled(b.room, step) && SeenAs(b.room, step).Some? && S.Enabled(b.sig, SeenAs(b.room, step).value)
    ensures S.Next(b.sig, SeenAs(b.room, step).value).deleted == b.sig.deleted
  {
  }

  lemma DeletionNoted(b: Both, step: L.Step)
    requires L.Enabled(b.room, step) && L.SameRoom(b.room.room, L.Next(b.room, step).room)
    requires SeenAs(b.room, step).Some? ==> S.Enabled(b.sig, SeenAs(b.room, step).value)
    requires b.sig.deleted == b.room.room.deleted
    ensures After(b, step).deleted == L.Next(b.room, step).room.deleted
  {
    if SeenAs(b.room, step).Some? {
      SeenDeletion(b, step);
    }
  }

  lemma AdvanceAgrees(b: Both, k: nat, alt: bool)
    requires Agree(b.room, b.sig) && LifecycleEnabled(b, L.Advance(k, alt))
    requires var seen := SeenAs(b.room, L.Advance(k, alt)); seen.Some? ==> S.Enabled(b.sig, seen.value)
    ensures Agree(L.Advanced(b.room, k, alt), Apply(b.sig, SeenAs(b.room, L.Advance(k, alt))))
  {
    var r, g := b.room, b.sig;
    var t := L.Advanced(r, k, alt);
    AdvanceStatic(r, k, alt);
    if r.slices[k].pc == L.Create && !alt {
      InsertAgrees(r, t, g, k);
    } else if r.slices[k].pc == L.Removing {
      RemoveAgrees(r, t, g, r.slices[k].id);
    } else {
      QuietAgrees(r, t, g);
    }
  }

  lemma LifecycleAgrees(b: Both, step: L.Step)
    requires Agree(b.room, b.sig) && L.DistinctIds(b.room.slices) && LifecycleEnabled(b, step)
    requires SeenAs(b.room, step).Some? ==> S.Enabled(b.sig, SeenAs(b.room, step).value)
    ensures Agree(L.Next(b.room, step), Apply(b.sig, SeenAs(b.room, step)))
  {
    var r, g := b.room, b.sig;
    match step
    case Advance(k, alt) => AdvanceAgrees(b, k, alt);
    case NewPeer(user, audioOnly) => ConnectAgrees(r, g, user, audioOnly);
    case Disconnect(p) => DisconnectAgrees(r, g, p);
    case _ => OtherLifecycleAgrees(r, g, step);
  }

  /** What the lifecycle sees of signaling. */
  ghost predicate SameTopology(g: S.Sig, h: S.Sig) {
    h.size == g.size && h.peers == g.peers && h.owners == g.owners && |h.conns| == |g.conns|
    && h.deleted == g.deleted && h.index.Keys == g.index.Keys
    && (forall p :: 0 <= p < |g.conns| ==> h.conns[p].userId == g.conns[p].userId)
    && (forall id :: id in g.index ==> h.index[id].owner == g.index[id].owner && h.index[id].kind == g.index[id].kind)
  }

  lemma UpdatedView(g: S.Sig, p: nat, env: Tracks.Env, u: Tracks.Updated)
    requires S.UpdateOf(g, p, env, u)
    ensures SameTopology(g, S.WithUpdated(g, p, env, u))
  {
  }

  lemma VisitView(g: S.Sig, user: UserId, env: Tracks.Env, u: Tracks.Updated)
    requires g.pass.Passing? && user in g.peers && S.UpdateOf(g, g.peers[user], env, u)
    ensures SameTopology(g, S.AfterVisit(g, user, env, u))
  {
    UpdatedView(g, g.peers[user], env, u);
  }

  lemma SliceView(g: S.Sig, id: TrackId, slice: Tracks.Slice)
    requires id in g.index && slice.owner == g.index[id].owner && slice.kind == g.index[id].kind
    ensures SameTopology(g, g.(index := g.index[id := slice]))
  {
  }

  /** Reports and ticks change one slice, and neither its owner nor its kind. */
  lemma RateView(g: S.Sig, step: S.Step)
    requires S.Enabled(g, step) && (step.LossReport? || step.TargetChange? || step.EncoderTick?)
    ensures SameTopology(g, S.Next(g, step))
  {
    var index := S.Next(g, step).index;
    SliceView(g, step.id, index[step.id]);
    assert index == g.index[step.id := index[step.id]];
    assert S.Next(g, step) == g.(index := index);
  }

  lemma OfferView(g: S.Sig, step: S.Step)
    requires S.Enabled(g, step) && (step.OfferTrigger? || step.Answer?)
    ensures SameTopology(g, S.Next(g, step))
  {
    assert S.Next(g, step).conns[step.p].userId == g.conns[step.p].userId;
  }

  lemma SignalingView(g: S.Sig, step: S.Step)
    requires S.PeersKnown(g) && S.SendersSafe(g) && S.Enabled(g, step) && SignalingOnly(step)
    ensures SameTopology(g, S.Next(g, step))
  {
    match step
    case PassPeer(user, env) =>
      S.UpdateIsUpdate(g, g.peers[user], env);
      VisitView(g, user, env, S.Update(g, g.peers[user], env));
    case InitialBegin(_) =>
    case InitialCollect(_) =>
    case InitialFetch(_, _) =>
    case InitialGivesUp(_) =>
    case InitialClean(_, _, _) =>
    case InitialAdd(p, slots, oneEncoding) => S.AddOneExpected(g, p, slots, oneEncoding);
    case InitialOffer(p, offer) => OfferView(g, S.OfferTrigger(p, offer));
    case OfferTrigger(_, _) => OfferView(g, step);
    case Answer(_) => OfferView(g, step);
    case PassBegin(_) =>
    case PassEnd =>
    case _ => RateView(g, step);
  }

  lemma SignalingAgrees(r: L.Sys, g: S.Sig, h: S.Sig)
    requires Agree(r, g) && SameTopology(g, h)
    ensures Agree(r, h)
  {
    forall id | id in r.index ensures SameTrack(r, h, id) {
      assert SameTrack(r, g, id);
    }
  }

  lemma SignalingInv(b: Both, step: S.Step)
    requires Inv(b) && SignalEnabled(b, step)
    ensures Inv(SignalNext(b, step))
  {
    S.StepInv(b.sig, step);
    SignalingView(b.sig, step);
    SignalingAgrees(b.room, b.sig, S.Next(b.sig, step));
  }

  // ---- whole runs of both

  datatype Move = Live(step: L.Step) | Signal(change: S.Step)

  ghost predicate Follows(b: Both, m: Move, c: Both) {
    match m
    case Live(step) =>
      LifecycleEnabled(b, step)
      && (SeenAs(b.room, step).Some? ==> S.Enabled(b.sig, SeenAs(b.room, step).value))
      && c == LiveNext(b, step)
    case Signal(step) => SignalEnabled(b, step) && c == SignalNext(b, step)
  }

  ghost predicate BothInit(b: Both) {
    L.Init(b.room) && S.Init(b.sig) && b.sig.size == b.room.room.size && b.asked == 0
  }

  ghost predicate Run(states: seq<Both>, moves: seq<Move>) {
    |states| == |moves| + 1
    && BothInit(states[0])
    && forall n :: 0 <= n < |moves| ==> Follows(states[n], moves[n], states[n + 1])
  }

  lemma FollowsInv(b: Both, m: Move, c: Both)
    requires Inv(b) && Follows(b, m, c)
    ensures Inv(c)
  {
    match m
    case Live(step) => LifecycleInv(b, step);
    case Signal(step) => SignalingInv(b, step);
  }

  lemma BothInitInv(b: Both)
    requires BothInit(b)
    ensures Inv(b)
  {
    L.InitInv(b.room);
    S.InitInv(b.sig);
    var id, jp :| b.room.room == NewRoom(id, jp) && b.room.pending == multiset{L.Request(jp.userId, jp.audioOnly)};
  }

  lemma NextInv(states: seq<Both>, moves: seq<Move>, n: nat)
    requires Run(states, moves) && n < |moves| && Inv(states[n])
    ensures Inv(states[n + 1])
  {
    FollowsInv(states[n], moves[n], states[n + 1]);
  }

  /** What the first state has and every move keeps, every state has. */
  lemma {:induction false} Along(keeps: Both -> bool, states: seq<Both>, n: nat)
    requires n < |states| && keeps(states[0])
    requires forall k :: 0 <= k < |states| - 1 && keeps(states[k]) ==> keeps(states[k + 1])
    ensures keeps(states[n])
  {
    if n > 0 {
      Along(keeps, states, n - 1);
    }
  }

  lemma {:induction false} ReachableInv(states: seq<Both>, moves: seq<Move>, n: nat)
    requires Run(states, moves) && n < |states|
    ensures Inv(states[n])
  {
    var keeps := (b: Both) => Inv(b);
    BothInitInv(states[0]);
    forall k | 0 <= k < |states| - 1 && keeps(states[k]) ensures keeps(states[k + 1]) {
      NextInv(states, moves, k);
    }
    Along(keeps, states, n);
  }

  /** The tracks of the slice goroutines now between their insertion into the mixer and
      their removal, but for those of one user (for all when the room is a mirror). */
  function LiveTracksOfOthers(r: L.Sys, u: UserId): set<TrackId> {
    set k | 0 <= k < |r.slices| && L.IsIndexed(r.slices[k]) && r.slices[k].peer < |r.peers|
            && (r.room.size == 1 || r.peers[r.slices[k].peer].userId != u) :: r.slices[k].id
  }

  lemma ExpectedIsLive(b: Both, u: UserId)
    requires L.Indexed(b.room) && L.Shape(b.room) && Agree(b.room, b.sig)
    ensures Tracks.Expected(b.sig.size, u, b.sig.index) == LiveTracksOfOthers(b.room, u)
  {
    var r, g := b.room, b.sig;
    forall id | id in Tracks.Expected(g.size, u, g.index) ensures id in LiveTracksOfOthers(r, u) {
      var k := r.index[id];
      assert SameTrack(r, g, id) && L.IsIndexed(r.slices[k]) && r.slices[k].id == id;
    }
    forall id | id in LiveTracksOfOthers(r, u) ensures id in Tracks.Expected(g.size, u, g.index) {
      var k :| 0 <= k < |r.slices| && L.IsIndexed(r.slices[k]) && r.slices[k].peer < |r.peers|
               && (r.room.size == 1 || r.peers[r.slices[k].peer].userId != u) && r.slices[k].id == id;
      assert r.index[id] == k && SameTrack(r, g, id);
    }
  }

  /** Over every run of both layers: at the end of a pass that returns true every user with a
      peer server is sent all the tracks of the slice goroutines of the others that are alive
      at that moment, and all of them are in the last offer made to her. If no removal failed,
      she is sent nothing else, except exactly if her initial update added a track already gone
      after the pass had visited her. */
  lemma PassSendsLiveTracks(states: seq<Both>, moves: seq<Move>, n: nat, u: UserId)
    requires Run(states, moves) && n < |moves| && moves[n] == Signal(S.PassEnd)
    requires u in states[n + 1].room.room.peerServerIndex
    ensures states[n].sig.pass.Passing?
    ensures PassSent(states[n].sig.pass, states[n + 1], u)
  {
    ReachableInv(states, moves, n);
    ReachableInv(states, moves, n + 1);
    assert Follows(states[n], moves[n], states[n + 1]);
    PassEndSendsLive(states[n], states[n + 1], u);
  }

  ghost predicate PassSent(pass: S.Pass, b: Both, u: UserId)
    requires pass.Passing? && u in b.room.room.peerServerIndex
  {
    var p, live := b.room.room.peerServerIndex[u], LiveTracksOfOthers(b.room, u);
    p < |b.sig.conns| && b.sig.conns[p].userId == u
    && live <= Tracks.Sent(b.sig.conns[p].senders)
    && live <= b.sig.conns[p].offered
    && (pass.clean ==> (Tracks.Sent(b.sig.conns[p].senders) == live <==> u !in pass.spoiled))
  }

  lemma PassEndSendsLive(b: Both, c: Both, u: UserId)
    requires Inv(b) && Inv(c) && S.Enabled(b.sig, S.PassEnd) && c.sig == S.Next(b.sig, S.PassEnd)
    requires u in c.room.room.peerServerIndex
    ensures PassSent(b.sig.pass, c, u)
  {
    ExpectedIsLive(c, u);
    PassEndDone(b.sig, u);
  }

  lemma PassEndDone(g: S.Sig, u: UserId)
    requires S.PeersKnown(g) && S.PassProgress(g) && S.Enabled(g, S.PassEnd) && u in g.peers
    ensures S.Complete(g, u) && (g.pass.clean ==> (S.Exact(g, u) <==> u !in g.pass.spoiled))
  {
    assert S.Done(g, u);
  }

  // ---- numbers of tracks

  lemma FollowsLatest(b: Both, m: Move, c: Both)
    requires L.LatestIndexed(b.room) && Follows(b, m, c)
    ensures L.LatestIndexed(c.room)
  {
    if m.Live? {
      L.FollowsLatest(b.room, m.step, c.room);
    }
  }

  lemma {:induction false} ReachableLatest(states: seq<Both>, moves: seq<Move>, n: nat)
    requires Run(states, moves) && n < |states|
    ensures L.LatestIndexed(states[n].room)
  {
    if n == 0 {
      var r := states[0].room;
      var id, jp :| r.room == NewRoom(id, jp) && r.pending == multiset{L.Request(jp.userId, jp.audioOnly)};
    } else {
      ReachableLatest(states, moves, n - 1);
      FollowsLatest(states[n - 1], moves[n - 1], states[n]);
    }
  }

  lemma NoMorePeersThanSize(r: L.Sys)
    requires L.LatestIndexed(r) && Members(r.room)
    ensures |r.room.peerServerIndex| <= r.room.size
  {
    var peers, members := r.room.peerServerIndex.Keys, r.room.connectedIndex.Keys;
    assert peers <= members;
    assert members == peers + (members - peers);
  }

  /** At the end of such a pass, when the n users with peer servers have one audio and one
      video slice each, a user's connection has exactly 2(n - 1) senders in use, or 2 in a room
      of size 1, exactly if it sends no track twice. */
  lemma TracksPerPeer(states: seq<Both>, moves: seq<Move>, n: nat, u: UserId)
    requires Run(states, moves) && n < |moves| && moves[n] == Signal(S.PassEnd)
    requires states[n].sig.pass.Passing? && states[n].sig.pass.clean && u !in states[n].sig.pass.spoiled
    requires u in states[n + 1].sig.peers
    requires Tracks.TwoSlicesEach(states[n + 1].sig.peers.Keys, states[n + 1].sig.index)
    ensures var g := states[n + 1].sig;
            g.peers[u] < |g.conns|
            && (S.TracksSentTo(g, u) == (if g.size == 1 then 2 else 2 * (|g.peers| - 1))
                <==> Tracks.SentOnce(g.conns[g.peers[u]].senders))
  {
    ReachableInv(states, moves, n);
    ReachableInv(states, moves, n + 1);
    ReachableLatest(states, moves, n + 1);
    assert Follows(states[n], moves[n], states[n + 1]);
    NoMorePeersThanSize(states[n + 1].room);
    ExactAtPassEnd(states[n].sig, states[n + 1].sig, u);
    CountOfExact(states[n + 1].sig, u);
  }

  lemma CountOfExact(g: S.Sig, u: UserId)
    requires u in g.peers && g.peers[u] < |g.conns| && S.Exact(g, u)
    requires Tracks.TwoSlicesEach(g.peers.Keys, g.index)
    requires |g.peers| <= g.size
    ensures S.TracksSentTo(g, u) == (if g.size == 1 then 2 else 2 * (|g.peers| - 1))
       <==> Tracks.SentOnce(g.conns[g.peers[u]].senders)
  {
    S.ExactCount(g, u);
    AtLeastOne(g.peers, u);
  }

  lemma AtLeastOne(peers: map<UserId, nat>, u: UserId)
    requires u in peers
    ensures |peers| >= 1
  {
    assert |peers| == |peers.Keys| && peers.Keys == {u} + (peers.Keys - {u});
  }

  lemma ExactAtPassEnd(g: S.Sig, h: S.Sig, u: UserId)
    requires S.PeersKnown(g) && S.PassProgress(g) && S.Enabled(g, S.PassEnd) && h == S.Next(g, S.PassEnd)
    requires g.pass.clean && u !in g.pass.spoiled && u in h.peers
    ensures h.peers[u] < |h.conns| && S.Exact(h, u)
  {
    PassEndDone(g, u);
  }

  /** While the room is not deleted, a failed pass that no later pass made good has its retry
      sleeping or running. */
  lemma RetryNeverLost(states: seq<Both>, moves: seq<Move>, n: nat)
    requires Run(states, moves) && n < |states| && states[n].sig.owed && !states[n].room.room.deleted
    ensures states[n].sig.retries > 0 || states[n].sig.pass.Passing?
  {
    ReachableInv(states, moves, n);
  }
}
