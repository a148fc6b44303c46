/** Which tracks the signaling passes that are asked for reach (sfu/interaction.go,
    sfu/mixer.go). A pass is asked for when a slice counts itself out and the new count is
    right; the tracks counted out since the last request have been asked for by nobody. */
module Coverage {
  import opened Base
  import opened Joint
  import opened RoomSpec
  import L = RoomSystem
  import S = SignalingSystem
  import T = Tracks

  /** History: users given a peer server, and tracks indexed, since a pass last returned true;
      tracks counted out since a pass was last asked for. */
  datatype Seen = Seen(newcomers: set<UserId>, recent: set<TrackId>, unasked: set<TrackId>)

  function SeenLive(r: L.Sys, step: L.Step, h: Seen): Seen {
    match step
    case NewPeer(user, _) => h.(newcomers := h.newcomers + {user})
    case Advance(k, alt) =>
      if k >= |r.slices| then h
      else if r.slices[k].pc == L.Create && !alt then h.(recent := h.recent + {r.slices[k].id})
      else if r.slices[k].pc == L.OutCount
      then h.(unasked := if CountOutTrack(r.room).1 then {} else h.unasked + {r.slices[k].id})
      else h
    case _ => h
  }

  ghost function SeenAfter(b: Both, m: Move, h: Seen): Seen {
    match m
    case Live(step) => SeenLive(b.room, step, h)
    case Signal(step) => if step.PassEnd? then h.(newcomers := {}, recent := {}) else h
  }

  ghost function History(states: seq<Both>, moves: seq<Move>, n: nat): Seen
    requires n <= |moves| < |states|
  {
    if n == 0 then Seen({}, {}, {}) else SeenAfter(states[n - 1], moves[n - 1], History(states, moves, n - 1))
  }

  predicate CountedOut(r: L.Sys, id: TrackId) {
    id in r.index && r.index[id] < |r.slices| && L.IsOut(r.slices[r.index[id]])
  }

  /** The user or the track is new, and the track, if counted out, has not been asked for. */
  predicate Overlooked(r: L.Sys, h: Seen, u: UserId, id: TrackId) {
    u in h.newcomers || (id in h.recent && (!CountedOut(r, id) || id in h.unasked))
  }

  /** The user is sent the track, and it is in the last offer made to her. */
  predicate Given(g: S.Sig, u: UserId, id: TrackId) {
    u in g.peers && g.peers[u] < |g.conns|
    && id in T.Sent(g.conns[g.peers[u]].senders) && id in g.conns[g.peers[u]].offered
  }

  /** No pass is running, asked for or owed in a room not deleted. */
  predicate Settled(b: Both) {
    b.asked == 0 && b.sig.pass.NoPass? && !b.sig.owed && !b.sig.deleted
  }

  ghost predicate Covered(b: Both, h: Seen) {
    Settled(b) ==> forall u, id :: Due(b, h, u, id) ==> Given(b.sig, u, id)
  }

  predicate Due(b: Both, h: Seen, u: UserId, id: TrackId) {
    u in b.sig.peers && id in T.Expected(b.sig.size, u, b.sig.index) && !Overlooked(b.room, h, u, id)
  }

  // ---- what is overlooked stays so

  lemma AdvanceOverlooks(r: L.Sys, k: nat, alt: bool, h: Seen, u: UserId, id: TrackId)
    requires L.Enabled(r, L.Advance(k, alt)) && L.Indexed(r) && !Asks(r, L.Advance(k, alt))
    requires id in r.index && Overlooked(r, h, u, id)
    ensures Overlooked(L.Advanced(r, k, alt), SeenLive(r, L.Advance(k, alt), h), u, id)
  {
    assert r.slices[r.index[id]].id == id;
  }

  lemma LiveOverlooks(r: L.Sys, step: L.Step, h: Seen, u: UserId, id: TrackId)
    requires L.Enabled(r, step) && L.Indexed(r) && !Asks(r, step)
    requires id in r.index && Overlooked(r, h, u, id)
    ensures Overlooked(L.Next(r, step), SeenLive(r, step, h), u, id)
  {
    match step
    case Advance(k, alt) => AdvanceOverlooks(r, k, alt, h, u, id);
    case TrackArrives(_, _, _) => assert r.slices[r.index[id]].id == id;
    case _ =>
  }

  /** A track is overlooked when it is indexed, a user when she is given a peer server. */
  lemma NewIsOverlooked(r: L.Sys, step: L.Step, h: Seen, u: UserId, id: TrackId)
    requires L.Enabled(r, step)
    requires (step == L.NewPeer(u, true) || step == L.NewPeer(u, false))
          || (step.Advance? && r.slices[step.k].pc == L.Create && !step.alt && r.slices[step.k].id == id)
    ensures Overlooked(L.Next(r, step), SeenLive(r, step, h), u, id)
  {
  }

  // ---- what is given stays so

  lemma NewOffer(g: S.Sig, step: S.Step, p: nat)
    requires S.Enabled(g, step) && (step.InitialOffer? || step.OfferTrigger? || step.Answer?) && p < |g.conns|
    ensures p < |S.Next(g, step).conns|
    ensures var c, d := g.conns[p], S.Next(g, step).conns[p];
            d.offered == c.offered || d.offered == T.Sent(d.senders)
  {
  }

  lemma OfferedKept(g: S.Sig, step: S.Step, p: nat)
    requires S.Enabled(g, step) && SignalingOnly(step) && !step.PassPeer? && p < |g.conns|
    ensures p < |S.Next(g, step).conns|
    ensures var c, d := g.conns[p], S.Next(g, step).conns[p];
            d.offered == c.offered || d.offered == T.Sent(d.senders)
  {
    if step.InitialOffer? || step.OfferTrigger? || step.Answer? {
      NewOffer(g, step, p);
    } else {
      SameOffer(g, step, p);
    }
  }

  lemma SameOffer(g: S.Sig, step: S.Step, p: nat)
    requires S.Enabled(g, step) && SignalingOnly(step) && p < |g.conns|
    requires !step.PassPeer? && !step.InitialOffer? && !step.OfferTrigger? && !step.Answer?
    ensures p < |S.Next(g, step).conns| && S.Next(g, step).conns[p].offered == g.conns[p].offered
  {
  }

  lemma GivenOnSignal(g: S.Sig, step: S.Step, u: UserId, id: TrackId)
    requires S.Inv(g) && S.Enabled(g, step) && SignalingOnly(step) && !step.PassPeer?
    requires Given(g, u, id) && id in g.index
    ensures u in S.Next(g, step).peers ==> Given(S.Next(g, step), u, id)
  {
    S.StepLosesNothing(g, step);
    OfferedKept(g, step, g.peers[u]);
  }

  lemma SettledBeforeSignal(b: Both, step: S.Step)
    requires SignalEnabled(b, step) && Settled(SignalNext(b, step)) && !step.PassEnd?
    ensures Settled(b) && !step.PassPeer?
  {
  }

  lemma SignalCovers(b: Both, h: Seen, step: S.Step)
    requires Inv(b) && SignalEnabled(b, step) && Settled(SignalNext(b, step)) && !step.PassEnd?
    requires Covered(b, h)
    ensures Covered(SignalNext(b, step), h)
  {
    var c := SignalNext(b, step);
    SettledBeforeSignal(b, step);
    SignalingView(b.sig, step);
    forall u, id | Due(c, h, u, id) ensures Given(c.sig, u, id) {
      assert Due(b, h, u, id);
      GivenOnSignal(b.sig, step, u, id);
    }
  }

  lemma PassEndCovers(b: Both, h: Seen)
    requires Inv(b) && SignalEnabled(b, S.PassEnd)
    ensures Covered(SignalNext(b, S.PassEnd), h)
  {
    var c := SignalNext(b, S.PassEnd);
    forall u, id | Due(c, h, u, id) ensures Given(c.sig, u, id) {
      PassEndDone(b.sig, u);
    }
  }

  // ---- lifecycle steps

  lemma SettledBeforeLive(b: Both, step: L.Step)
    requires LifecycleEnabled(b, step)
    requires SeenAs(b.room, step).Some? ==> S.Enabled(b.sig, SeenAs(b.room, step).value)
    requires Settled(LiveNext(b, step))
    ensures Settled(b) && !Asks(b.room, step) && After(b, step) == Apply(b.sig, SeenAs(b.room, step))
  {
  }

  /** What a lifecycle step leaves to be sent was to be sent before, or is overlooked. */
  lemma DueBefore(b: Both, step: L.Step, h: Seen, u: UserId, id: TrackId)
    requires L.Indexed(b.room) && Agree(b.room, b.sig) && LifecycleEnabled(b, step) && !Asks(b.room, step)
    requires SeenAs(b.room, step).Some? ==> S.Enabled(b.sig, SeenAs(b.room, step).value)
    requires var g := Apply(b.sig, SeenAs(b.room, step));
             u in g.peers && id in T.Expected(g.size, u, g.index)
             && !Overlooked(L.Next(b.room, step), SeenLive(b.room, step, h), u, id)
    ensures Due(b, h, u, id)
    ensures Given(b.sig, u, id) ==> Given(Apply(b.sig, SeenAs(b.room, step)), u, id)
  {
    var r := b.room;
    if step.NewPeer? && step.user == u {
      NewIsOverlooked(r, step, h, u, id);
    } else if step.Advance? && r.slices[step.k].pc == L.Create && !step.alt && r.slices[step.k].id == id {
      NewIsOverlooked(r, step, h, u, id);
    } else if Overlooked(r, h, u, id) {
      LiveOverlooks(r, step, h, u, id);
    }
  }

  lemma LiveCovers(b: Both, h: Seen, step: L.Step)
    requires Inv(b) && LifecycleEnabled(b, step) && Covered(b, h)
    requires SeenAs(b.room, step).Some? ==> S.Enabled(b.sig, SeenAs(b.room, step).value)
    ensures Covered(LiveNext(b, step), SeenLive(b.room, step, h))
  {
    var c := LiveNext(b, step);
    if Settled(c) {
      SettledBeforeLive(b, step);
      forall u, id | Due(c, SeenLive(b.room, step, h), u, id) ensures Given(c.sig, u, id) {
        DueBefore(b, step, h, u, id);
      }
    }
  }

  // ---- whole runs

  lemma CoveredNext(b: Both, m: Move, c: Both, h: Seen)
    requires Inv(b) && Follows(b, m, c) && Covered(b, h)
    ensures Covered(c, SeenAfter(b, m, h))
  {
    match m
    case Live(step) => LiveCovers(b, h, step);
    case Signal(step) =>
      if step.PassEnd? {
        PassEndCovers(b, SeenAfter(b, m, h));
      } else if Settled(c) {
        SignalCovers(b, h, step);
      }
  }

  lemma NobodyToCover(states: seq<Both>, moves: seq<Move>, h: Seen)
    requires Run(states, moves)
    ensures Covered(states[0], h)
  {
    assert states[0].sig.peers == map[];
  }

  lemma MoveCovers(states: seq<Both>, moves: seq<Move>, n: nat, h: Seen)
    requires Run(states, moves) && n < |moves| && Covered(states[n], h)
    ensures Covered(states[n + 1], SeenAfter(states[n], moves[n], h))
  {
    ReachableInv(states, moves, n);
    CoveredNext(states[n], moves[n], states[n + 1], h);
  }

  /** What holds at first and every move keeps, holds throughout. */
  lemma {:induction false} Throughout(keeps: (Both, Seen) -> bool, states: seq<Both>, moves: seq<Move>, n: nat)
    requires n <= |moves| < |states| && keeps(states[0], Seen({}, {}, {}))
    requires forall k: nat, h :: k < |moves| && keeps(states[k], h) ==>
               keeps(states[k + 1], SeenAfter(states[k], moves[k], h))
    ensures keeps(states[n], History(states, moves, n))
  {
    if n > 0 {
      Throughout(keeps, states, moves, n - 1);
    }
  }

  lemma AlwaysCovered(states: seq<Both>, moves: seq<Move>, n: nat)
    requires Run(states, moves) && n < |states|
    ensures Covered(states[n], History(states, moves, n))
  {
    var keeps := (b: Both, h: Seen) => Covered(b, h);
    NobodyToCover(states, moves, Seen({}, {}, {}));
    forall k: nat, h | k < |moves| && keeps(states[k], h)
      ensures keeps(states[k + 1], SeenAfter(states[k], moves[k], h))
    {
      MoveCovers(states, moves, k, h);
    }
    Throughout(keeps, states, moves, n);
  }

  /** Over every run: when no pass is running, asked for or owed, every user is sent every live
      track of the others, and it is in the last offer made to her; but for users given a peer
      server, and tracks indexed, since a pass last returned true, and of these tracks only
      those not counted out yet or that no pass was asked for. */
  lemma LiveTracksAreGiven(states: seq<Both>, moves: seq<Move>, n: nat, u: UserId, id: TrackId)
    requires Run(states, moves) && n < |states| && Settled(states[n])
    requires u in states[n].room.room.peerServerIndex && id in LiveTracksOfOthers(states[n].room, u)
    requires !Overlooked(states[n].room, History(states, moves, n), u, id)
    ensures Given(states[n].sig, u, id)
  {
    AlwaysCovered(states, moves, n);
    ReachableInv(states, moves, n);
    ExpectedIsLive(states[n], u);
    assert Due(states[n], History(states, moves, n), u, id);
  }

  // ---- how many passes are asked for

  /** A connected user leaves a room already deleted. */
  predicate LeavesDeleted(b: Both, m: Move) {
    m.Live? && m.step.Disconnect? && m.step.p < |b.room.peers|
    && IsConnected(b.room.room, b.room.peers[m.step.p].userId) && b.room.room.deleted
  }

  ghost function Requests(states: seq<Both>, moves: seq<Move>, n: nat): nat
    requires n <= |moves| < |states|
  {
    if n == 0 then 0
    else
      var b, m := states[n - 1], moves[n - 1];
      Requests(states, moves, n - 1) + One((CountsOut(b, m) && RightCount(b.room.room)) || LeavesDeleted(b, m))
  }

  function Begun(moves: seq<Move>, n: nat): nat
    requires n <= |moves|
  {
    if n == 0 then 0 else Begun(moves, n - 1) + One(moves[n - 1] == Signal(S.PassBegin(false)))
  }

  lemma FollowsAsked(b: Both, m: Move, c: Both)
    requires Follows(b, m, c)
    ensures c.asked + One(m == Signal(S.PassBegin(false)))
         == b.asked + One((CountsOut(b, m) && RightCount(b.room.room)) || LeavesDeleted(b, m))
  {
  }

  /** The passes asked for and not begun are those asked for, by a count that is right or by a
      connected user leaving a deleted room, less those begun that are no retries. */
  lemma {:induction false} AskedCounted(states: seq<Both>, moves: seq<Move>, n: nat)
    requires Run(states, moves) && n < |states|
    ensures states[n].asked + Begun(moves, n) == Requests(states, moves, n)
  {
    if n > 0 {
      AskedCounted(states, moves, n - 1);
      FollowsAsked(states[n - 1], moves[n - 1], states[n]);
    }
  }

  // ---- which tracks no pass was asked for

  predicate CountsOut(b: Both, m: Move) {
    m.Live? && m.step.Advance? && m.step.k < |b.room.slices| && b.room.slices[m.step.k].pc == L.OutCount
  }

  function TrackCounted(b: Both, m: Move): TrackId
    requires CountsOut(b, m)
  {
    b.room.slices[m.step.k].id
  }

  /** The new count is the number needed, or even in a ready room. */
  predicate RightCount(r: Room) {
    r.outTracksReadyCount + 1 == r.neededTracks || (r.ready && (r.outTracksReadyCount + 1) % 2 == 0)
  }

  ghost predicate CountedUnasked(states: seq<Both>, moves: seq<Move>, n: nat, m: nat, id: TrackId)
    requires n <= |moves| < |states|
  {
    m < n && CountsOut(states[m], moves[m]) && TrackCounted(states[m], moves[m]) == id
    && forall j :: m <= j < n && CountsOut(states[j], moves[j]) ==> !RightCount(states[j].room.room)
  }

  lemma UnaskedNext(b: Both, m: Move, h: Seen, id: TrackId)
    ensures id in SeenAfter(b, m, h).unasked
       <==> if !CountsOut(b, m) then id in h.unasked
            else !RightCount(b.room.room) && (id in h.unasked || TrackCounted(b, m) == id)
  {
  }

  /** A track is one that no pass was asked for exactly if it was counted out, and neither then
      nor since did a track counted out bring the count to the number needed or, in a ready
      room, to an even one. */
  lemma {:induction false} UnaskedIff(states: seq<Both>, moves: seq<Move>, n: nat, id: TrackId)
    requires n <= |moves| < |states|
    ensures id in History(states, moves, n).unasked <==> exists m: nat :: CountedUnasked(states, moves, n, m, id)
  {
    if n == 0 {
    } else {
      var b, m := states[n - 1], moves[n - 1];
      UnaskedIff(states, moves, n - 1, id);
      UnaskedNext(b, m, History(states, moves, n - 1), id);
      if id in History(states, moves, n).unasked {
        if id in History(states, moves, n - 1).unasked {
          var j: nat :| CountedUnasked(states, moves, n - 1, j, id);
          assert CountedUnasked(states, moves, n, j, id);
        } else {
          assert CountedUnasked(states, moves, n, n - 1, id);
        }
      }
      if j: nat :| CountedUnasked(states, moves, n, j, id) {
        assert j < n - 1 ==> CountedUnasked(states, moves, n - 1, j, id);
      }
    }
  }

  /** Whether any track is left that no pass was asked for is decided by the last one counted
      out. */
  lemma LastCountDecides(states: seq<Both>, moves: seq<Move>, n: nat, m: nat)
    requires m < n <= |moves| < |states| && CountsOut(states[m], moves[m])
    requires forall j :: m < j < n ==> !CountsOut(states[j], moves[j])
    ensures History(states, moves, n).unasked == {} <==> RightCount(states[m].room.room)
  {
    if RightCount(states[m].room.room) {
      forall id ensures id !in History(states, moves, n).unasked {
        UnaskedIff(states, moves, n, id);
      }
    } else {
      var id := TrackCounted(states[m], moves[m]);
      UnaskedIff(states, moves, n, id);
      assert CountedUnasked(states, moves, n, m, id);
    }
  }
}
