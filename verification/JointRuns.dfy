/** Runs of lifecycle and signaling together that the code can make and its comments do not
    mention. */
module JointRuns {
  import opened Base
  import opened Coverage
  import opened Joint
  import opened PipelineProtocol
  import opened RoomSpec
  import L = RoomSystem
  import Payload
  import S = SignalingSystem
  import T = Tracks

  ghost predicate Reaches(b: Both, h: Seen) {
    exists states: seq<Both>, moves: seq<Move> :: EndsIn(states, moves, b, h)
  }

  ghost predicate EndsIn(states: seq<Both>, moves: seq<Move>, b: Both, h: Seen) {
    Run(states, moves) && states[|moves|] == b && History(states, moves, |moves|) == h
  }

  lemma {:induction false} SameHistory(states: seq<Both>, moves: seq<Move>, c: Both, m: Move, n: nat)
    requires n <= |moves| < |states|
    ensures History(states + [c], moves + [m], n) == History(states, moves, n)
  {
    if n > 0 {
      SameHistory(states, moves, c, m, n - 1);
    }
  }

  lemma LongerRun(states: seq<Both>, moves: seq<Move>, m: Move, c: Both)
    requires Run(states, moves) && Follows(states[|moves|], m, c)
    ensures Run(states + [c], moves + [m])
  {
    var longer, more := states + [c], moves + [m];
    forall n | 0 <= n < |more| ensures Follows(longer[n], more[n], longer[n + 1]) {
      assert n < |moves| ==> Follows(states[n], moves[n], states[n + 1]);
    }
  }

  lemma Extended(b: Both, h: Seen, m: Move, c: Both)
    requires Reaches(b, h) && Follows(b, m, c)
    ensures Reaches(c, SeenAfter(b, m, h))
  {
    var states: seq<Both>, moves: seq<Move> :| EndsIn(states, moves, b, h);
    LongerRun(states, moves, m, c);
    LongerEnds(states, moves, b, h, m, c);
  }

  lemma LongerEnds(states: seq<Both>, moves: seq<Move>, b: Both, h: Seen, m: Move, c: Both)
    requires |states| == |moves| + 1 && states[|moves|] == b && History(states, moves, |moves|) == h
    requires Run(states + [c], moves + [m])
    ensures EndsIn(states + [c], moves + [m], c, SeenAfter(b, m, h))
  {
    SameHistory(states, moves, c, m, |moves|);
    assert (states + [c])[|moves|] == b && (moves + [m])[|moves|] == m;
  }

  /** The runs below are built over any predicate that holds of first states, is kept by every
      move and implies some of the invariant; in the end it is Reaches. */
  type Reach = (Both, Seen) -> bool

  ghost predicate Sound(ok: Reach) {
    (forall b {:trigger BothInit(b)} :: BothInit(b) ==> ok(b, Seen({}, {}, {})))
    && (forall b, h, m, c {:trigger ok(b, h), Follows(b, m, c)} ::
          ok(b, h) && Follows(b, m, c) ==> ok(c, SeenAfter(b, m, h)))
    && (forall b, h {:trigger Visitable(b), ok(b, h)} :: ok(b, h) ==> Visitable(b))
  }

  ghost predicate Visitable(b: Both) {
    S.PeersKnown(b.sig) && S.SendersSafe(b.sig) && b.sig.peers == b.room.room.peerServerIndex
  }

  lemma ReachedInv(b: Both, h: Seen)
    requires Reaches(b, h)
    ensures Visitable(b)
  {
    var states: seq<Both>, moves: seq<Move> :| EndsIn(states, moves, b, h);
    ReachableInv(states, moves, |moves|);
  }

  lemma ReachesIsSound()
    ensures Sound((b: Both, h: Seen) => Reaches(b, h))
  {
    forall b | BothInit(b) ensures Reaches(b, Seen({}, {}, {})) {
      assert Run([b], []) && EndsIn([b], [], b, Seen({}, {}, {}));
    }
    forall b, h, m, c | Reaches(b, h) && Follows(b, m, c) ensures Reaches(c, SeenAfter(b, m, h)) {
      Extended(b, h, m, c);
    }
    forall b, h | Reaches(b, h) ensures Visitable(b) {
      ReachedInv(b, h);
    }
  }

  /** A lifecycle step. */
  lemma Go(ok: Reach, b: Both, h: Seen, step: L.Step) returns (c: Both, k: Seen)
    requires Sound(ok) && ok(b, h) && LifecycleEnabled(b, step)
    requires SeenAs(b.room, step).Some? ==> S.Enabled(b.sig, SeenAs(b.room, step).value)
    ensures ok(c, k) && c == LiveNext(b, step) && k == SeenLive(b.room, step, h)
  {
    c, k := LiveNext(b, step), SeenLive(b.room, step, h);
    assert Follows(b, Live(step), c) && k == SeenAfter(b, Live(step), h);
  }

  /** A signaling step. */
  lemma Do(ok: Reach, b: Both, h: Seen, step: S.Step) returns (c: Both, k: Seen)
    requires Sound(ok) && ok(b, h) && SignalEnabled(b, step)
    ensures ok(c, k) && c == SignalNext(b, step) && k == SeenAfter(b, Signal(step), h)
  {
    c, k := SignalNext(b, step), SeenAfter(b, Signal(step), h);
    assert Follows(b, Signal(step), c);
  }

  /** A lifecycle step that signaling does not see, in a room it does not delete. */
  lemma GoUnseen(ok: Reach, b: Both, h: Seen, step: L.Step) returns (c: Both, k: Seen)
    requires Sound(ok) && ok(b, h) && L.Enabled(b.room, step) && SeenAs(b.room, step).None?
    requires !L.Next(b.room, step).room.deleted
    ensures ok(c, k) && k == SeenLive(b.room, step, h)
    ensures c == Both(L.Next(b.room, step), b.sig, b.asked + One(Asks(b.room, step)))
  {
    c, k := Go(ok, b, h, step);
  }

  lemma Joins(ok: Reach, b: Both, h: Seen, user: UserId) returns (c: Both)
    requires Sound(ok) && ok(b, h) && L.CanWrite(b.room.room) && !b.room.room.deleted
    requires L.IsAccepted(Join(b.room.room, user).1)
    ensures ok(c, h)
    ensures c == b.(room := b.room.(room := Join(b.room.room, user).0,
                                    pending := b.room.pending + multiset{L.Request(user, true)}))
  {
    var k: Seen;
    c, k := GoUnseen(ok, b, h, L.JoinUser(user, true));
  }

  lemma Connects(ok: Reach, b: Both, h: Seen, user: UserId) returns (c: Both)
    requires Sound(ok) && ok(b, h) && L.CanWrite(b.room.room) && !b.room.room.deleted && b.sig.pass.NoPass?
    requires user in b.room.room.connectedIndex && L.Request(user, true) in b.room.pending
    ensures ok(c, h.(newcomers := h.newcomers + {user})) && c.asked == b.asked
    ensures c.room == b.room.(room := ConnectPeerServer(b.room.room, user, |b.room.peers|),
                              peers := b.room.peers + [OpenPeer(user, map[])],
                              pending := b.room.pending - multiset{L.Request(user, true)})
    ensures c.sig == b.sig.(conns := b.sig.conns + [T.NewConn(user)], jobs := b.sig.jobs + [S.NotBegun],
                            peers := b.sig.peers[user := |b.sig.conns|])
  {
    var k: Seen;
    c, k := Go(ok, b, h, L.NewPeer(user, true));
  }

  lemma Arrives(ok: Reach, b: Both, h: Seen, p: nat, id: TrackId) returns (c: Both)
    requires Sound(ok) && ok(b, h) && L.CanWrite(b.room.room) && !b.room.room.deleted
    requires p < |b.room.peers| && b.room.peers[p].tracks == map[] && id !in b.room.ids
    ensures ok(c, h) && c == b.(room := c.room)
    ensures c.room == b.room.(peers := b.room.peers[p := b.room.peers[p].(tracks := map[Audio := |b.room.slices|])],
                              slices := b.room.slices + [AudioSlice(id, p, L.InCheck, false)],
                              ids := b.room.ids + {id})
  {
    var k: Seen;
    c, k := GoUnseen(ok, b, h, L.TrackArrives(p, Audio, id));
    assert map[][Audio := |b.room.slices|] == map[Audio := |b.room.slices|];
  }

  /** An action of a slice that touches neither the mixer nor a pipeline. */
  lemma Advances(ok: Reach, b: Both, h: Seen, n: nat) returns (c: Both)
    requires Sound(ok) && ok(b, h) && L.Enabled(b.room, L.Advance(n, false)) && !b.room.room.deleted
    requires b.room.slices[n].pc in {L.InCheck, L.InCount, L.Waiting}
    ensures ok(c, h) && c == b.(room := c.room)
    ensures c.room == b.room.(room := L.RoomAfter(b.room.room, b.room.slices[n].pc),
                              slices := b.room.slices[n := L.SliceAfter(b.room.room, b.room.slices[n], false)])
  {
    var k: Seen;
    c, k := GoUnseen(ok, b, h, L.Advance(n, false));
    assert b.room.peers[b.room.slices[n].peer := b.room.peers[b.room.slices[n].peer]] == b.room.peers;
  }

  lemma IsCountedIn(ok: Reach, b: Both, h: Seen, n: nat) returns (c: Both)
    requires Sound(ok) && ok(b, h) && n < |b.room.slices| && b.room.slices[n].peer < |b.room.peers|
    requires b.room.slices[n].pc == L.InCheck && !b.room.room.deleted && L.CanWrite(b.room.room)
    requires !AlreadyReady(b.room.room)
    ensures ok(c, h) && c == b.(room := c.room)
    ensures c.room == b.room.(room := CountInTrack(b.room.room),
                              slices := b.room.slices[n := b.room.slices[n].(pc := L.Create, counted := true)])
  {
    c := Advances(ok, b, h, n);
    c := Advances(ok, c, h, n);
  }

  lemma IsIndexed(ok: Reach, b: Both, h: Seen, n: nat) returns (c: Both)
    requires Sound(ok) && ok(b, h) && n < |b.room.slices| && b.room.slices[n].peer < |b.room.peers|
    requires b.room.slices[n].pc == L.Create && !b.room.room.deleted && b.sig.pass.NoPass?
    requires b.room.slices[n].id !in b.sig.owners
    ensures var x := b.room.slices[n];
            ok(c, h.(recent := h.recent + {x.id})) && c.asked == b.asked
            && c.room == b.room.(slices := b.room.slices[n := x.(pc := L.Waiting)], index := b.room.index[x.id := n])
            && c.sig == b.sig.(index := b.sig.index[x.id := FirstSeen(b.room, x)],
                               owners := b.sig.owners[x.id := b.room.peers[x.peer].userId])
  {
    var k: Seen;
    c, k := Go(ok, b, h, L.Advance(n, false));
    assert b.room.peers[b.room.slices[n].peer := b.room.peers[b.room.slices[n].peer]] == b.room.peers;
  }

  lemma IsCountedOut(ok: Reach, b: Both, h: Seen, n: nat) returns (c: Both, k: Seen)
    requires Sound(ok) && ok(b, h) && n < |b.room.slices| && b.room.slices[n].peer < |b.room.peers|
    requires b.room.slices[n].pc == L.OutCount && !b.room.room.deleted && L.CanWrite(b.room.room)
    ensures var x, asks := b.room.slices[n], CountOutTrack(b.room.room).1;
            ok(c, k) && k == h.(unasked := if asks then {} else h.unasked + {x.id})
            && c.asked == b.asked + One(asks) && c.sig == b.sig
            && c.room == b.room.(room := CountOutTrack(b.room.room).0,
                                 slices := b.room.slices[n := x.(pc := L.Bind)])
  {
    c, k := GoUnseen(ok, b, h, L.Advance(n, false));
    assert b.room.peers[b.room.slices[n].peer := b.room.peers[b.room.slices[n].peer]] == b.room.peers;
  }

  // ---- a room of size 2 for audio only

  ghost predicate Members2(r: Room, u: bool, peers: map<UserId, nat>) {
    r.size == 2 && r.neededTracks == 2 && !r.deleted && r.abort in {Armed, Cancelled}
    && r.connectedIndex == map["u" := u, "w" := true] && r.peerServerIndex == peers
  }

  ghost predicate Counts(r: Room, ins: nat, outs: nat) {
    r.inTracksReadyCount == ins && r.outTracksReadyCount == outs
    && r.ready == (ins == 2) && (ins == 2 ==> r.readyCh > 0)
  }

  function OpenPeer(user: UserId, tracks: map<Kind, nat>): L.Peer {
    L.Peer(user, NewPipe(true), tracks, false, 0, false, true)
  }

  function AudioSlice(id: TrackId, peer: nat, pc: L.Pc, counted: bool): L.Slice {
    L.Slice(id, peer, Audio, pc, counted, 0)
  }

  /** No pass running, owed or to be tried again; the connections send nothing and wait for no
      answer. */
  ghost predicate Quiet(g: S.Sig, jobs: seq<S.Job>) {
    g.size == 2 && g.pass.NoPass? && g.retries == 0 && !g.owed && !g.deleted
    && g.jobs == jobs && |g.conns| == |jobs|
    && forall p :: 0 <= p < |g.conns| ==> g.conns[p].senders == [] && !g.conns[p].pending
  }

  /** No track yet; the peer servers are those of the given users, in this order. */
  ghost predicate NoTracks(b: Both, peers: seq<L.Peer>, indexed: map<UserId, nat>, jobs: seq<S.Job>) {
    Members2(b.room.room, true, indexed) && Counts(b.room.room, 0, 0)
    && b.room.peers == peers && b.room.slices == [] && b.room.index == map[] && b.room.ids == {}
    && Quiet(b.sig, jobs) && b.sig.index == map[] && b.sig.owners == map[] && b.asked == 0
  }

  lemma RoomMade(ok: Reach) returns (b: Both)
    requires Sound(ok)
    ensures ok(b, Seen({}, {}, {})) && b.asked == 0 && b.room.pending == multiset{L.Request("u", true)}
    ensures b.room.room == NewRoom("r", Payload.JoinPayload("o", "n", "i", "u", 2, true))
    ensures b.room.peers == [] && b.room.slices == [] && b.room.index == map[] && b.room.ids == {}
    ensures Quiet(b.sig, []) && b.sig.peers == map[] && b.sig.index == map[] && b.sig.owners == map[]
  {
    var jp := Payload.JoinPayload("o", "n", "i", "u", 2, true);
    var r := L.Sys(NewRoom("r", jp), [], [], map[], {}, multiset{L.Request("u", true)});
    assert r.room == NewRoom("r", jp) && r.pending == multiset{L.Request(jp.userId, jp.audioOnly)};
    b := Both(r, S.Sig(2, false, map[], [], [], map[], S.NoPass, 0, false, map[], {}, {}, false), 0);
    assert BothInit(b);
  }

  lemma BothJoin(ok: Reach) returns (b: Both)
    requires Sound(ok)
    ensures ok(b, Seen({}, {}, {})) && NoTracks(b, [], map[], [])
    ensures b.room.pending == multiset{L.Request("u", true), L.Request("w", true)}
  {
    b := RoomMade(ok);
    b := Joins(ok, b, Seen({}, {}, {}), "w");
  }

  lemma OneConnects(
      ok: Reach, b: Both, h: Seen, peers: seq<L.Peer>, indexed: map<UserId, nat>, jobs: seq<S.Job>, user: UserId)
    returns (c: Both)
    requires Sound(ok) && ok(b, h) && NoTracks(b, peers, indexed, jobs) && user in {"u", "w"}
    requires L.Request(user, true) in b.room.pending
    ensures ok(c, h.(newcomers := h.newcomers + {user}))
    ensures NoTracks(c, peers + [OpenPeer(user, map[])], indexed[user := |peers|], jobs + [S.NotBegun])
    ensures c.room.pending == b.room.pending - multiset{L.Request(user, true)}
  {
    c := Connects(ok, b, h, user);
  }

  function TwoPeers(u: map<Kind, nat>, w: map<Kind, nat>): seq<L.Peer> {
    [OpenPeer("u", u), OpenPeer("w", w)]
  }

  lemma FirstConnects(ok: Reach) returns (b: Both)
    requires Sound(ok)
    ensures ok(b, Seen({"u"}, {}, {}))
    ensures NoTracks(b, [OpenPeer("u", map[])], map["u" := 0], [S.NotBegun])
    ensures b.room.pending == multiset{L.Request("w", true)}
  {
    var none: map<UserId, nat> := map[];
    b := BothJoin(ok);
    b := OneConnects(ok, b, Seen({}, {}, {}), [], none, [], "u");
    assert none["u" := 0] == map["u" := 0];
    assert {} + {"u"} == {"u"};
  }

  lemma BothConnect(ok: Reach) returns (b: Both)
    requires Sound(ok)
    ensures ok(b, Seen({"u", "w"}, {}, {}))
    ensures NoTracks(b, TwoPeers(map[], map[]), map["u" := 0, "w" := 1], [S.NotBegun, S.NotBegun])
  {
    b := FirstConnects(ok);
    b := OneConnects(ok, b, Seen({"u"}, {}, {}), [OpenPeer("u", map[])], map["u" := 0], [S.NotBegun], "w");
    assert map["u" := 0]["w" := 1] == map["u" := 0, "w" := 1];
    assert {"u"} + {"w"} == {"u", "w"};
  }

  /** The initial update of a connection while nothing is indexed, and its offer answered. */
  lemma NothingToSend(ok: Reach, b: Both, h: Seen, p: nat) returns (c: Both)
    requires Sound(ok) && ok(b, h) && b.sig.index == map[] && Quiet(b.sig, b.sig.jobs)
    requires p < |b.sig.jobs| && b.sig.jobs[p] == S.NotBegun
    ensures ok(c, h) && c == b.(sig := c.sig)
    ensures c.sig == b.sig.(conns := c.sig.conns, jobs := b.sig.jobs[p := S.Ended])
    ensures Quiet(c.sig, c.sig.jobs)
  {
    c := InitialCollects(ok, b, h, p);
    c := InitialOffers(ok, c, h, p);
  }

  lemma InitialCollects(ok: Reach, b: Both, h: Seen, p: nat) returns (c: Both)
    requires Sound(ok) && ok(b, h) && S.HasJob(b.sig, p) && b.sig.jobs[p] == S.NotBegun && b.sig.conns[p].senders == []
    ensures ok(c, h) && c == b.(sig := S.WithJob(b.sig, p, S.Adding({}, {}, None)))
  {
    var k: Seen;
    c := InitialBegins(ok, b, h, p);
    assert T.AlreadySent([], b.sig.index) == {};
    c, k := Do(ok, c, h, S.InitialCollect(p));
  }

  lemma InitialBegins(ok: Reach, b: Both, h: Seen, p: nat) returns (c: Both)
    requires Sound(ok) && ok(b, h) && S.HasJob(b.sig, p) && b.sig.jobs[p] == S.NotBegun
    ensures ok(c, h) && c == b.(sig := S.WithJob(b.sig, p, S.Cleaning))
  {
    var k: Seen;
    c, k := Do(ok, b, h, S.InitialBegin(p));
  }

  lemma InitialOffers(ok: Reach, b: Both, h: Seen, p: nat) returns (c: Both)
    requires Sound(ok) && ok(b, h) && S.HasJob(b.sig, p) && S.HandEmpty(b.sig.jobs[p]) && !b.sig.conns[p].pending
    ensures ok(c, h) && c == b.(sig := c.sig)
    ensures c.sig == b.sig.(conns := c.sig.conns, jobs := b.sig.jobs[p := S.Ended])
    ensures |c.sig.conns| == |b.sig.conns| && c.sig.conns == b.sig.conns[p := c.sig.conns[p]]
    ensures c.sig.conns[p].senders == b.sig.conns[p].senders && !c.sig.conns[p].pending
  {
    var k: Seen;
    c, k := Do(ok, b, h, S.InitialOffer(p, T.OfferEnv(true, true, true)));
    c, k := Do(ok, c, k, S.Answer(p));
  }

  lemma BothReady(ok: Reach) returns (b: Both)
    requires Sound(ok)
    ensures ok(b, Seen({"u", "w"}, {}, {}))
    ensures NoTracks(b, TwoPeers(map[], map[]), map["u" := 0, "w" := 1], [S.Ended, S.Ended])
  {
    b := BothConnect(ok);
    b := NothingToSend(ok, b, Seen({"u", "w"}, {}, {}), 0);
    b := NothingToSend(ok, b, Seen({"u", "w"}, {}, {}), 1);
  }

  // ---- one audio track each

  /** The tracks "a" of "u" and "b" of "w", at the given places. */
  ghost predicate TwoTracks(b: Both, pcA: L.Pc, pcB: L.Pc, ins: nat, outs: nat) {
    Members2(b.room.room, true, map["u" := 0, "w" := 1]) && Counts(b.room.room, ins, outs)
    && b.room.peers == TwoPeers(map[Audio := 0], map[Audio := 1])
    && b.room.slices == [AudioSlice("a", 0, pcA, L.At(pcA) >= 2), AudioSlice("b", 1, pcB, L.At(pcB) >= 2)]
    && b.room.ids == {"a", "b"} && Quiet(b.sig, [S.Ended, S.Ended])
  }

  ghost predicate Indexes(b: Both, index: map<TrackId, nat>, owners: map<TrackId, UserId>) {
    b.room.index == index && b.sig.owners == owners && b.sig.index.Keys == index.Keys
    && forall id :: id in index ==> id in owners && b.sig.index[id].owner == owners[id]
  }

  const SETTLED: Seen := Seen({"u", "w"}, {}, {})

  lemma TracksArrive(ok: Reach) returns (b: Both)
    requires Sound(ok)
    ensures ok(b, SETTLED) && TwoTracks(b, L.InCheck, L.InCheck, 0, 0) && Indexes(b, map[], map[]) && b.asked == 0
  {
    b := BothReady(ok);
    b := Arrives(ok, b, SETTLED, 0, "a");
    b := Arrives(ok, b, SETTLED, 1, "b");
  }

  lemma CountedIn(ok: Reach, b: Both, h: Seen) returns (c: Both)
    requires Sound(ok) && ok(b, h) && TwoTracks(b, L.InCheck, L.InCheck, 0, 0)
    ensures ok(c, h) && TwoTracks(c, L.Create, L.Create, 2, 0) && c == b.(room := c.room)
    ensures c.room.index == b.room.index
  {
    c := IsCountedIn(ok, b, h, 0);
    c := IsCountedIn(ok, c, h, 1);
  }

  lemma IndexedA(ok: Reach, b: Both, h: Seen) returns (c: Both, k: Seen)
    requires Sound(ok) && ok(b, h) && TwoTracks(b, L.Create, L.Create, 2, 0) && Indexes(b, map[], map[])
    ensures ok(c, k) && TwoTracks(c, L.Waiting, L.Create, 2, 0) && c.asked == b.asked
    ensures Indexes(c, map["a" := 0], map["a" := "u"]) && k == h.(recent := h.recent + {"a"})
  {
    c := IsIndexed(ok, b, h, 0);
    k := h.(recent := h.recent + {"a"});
  }

  lemma IndexedB(ok: Reach, b: Both, h: Seen) returns (c: Both, k: Seen)
    requires Sound(ok) && ok(b, h) && TwoTracks(b, L.Waiting, L.Create, 2, 0)
    requires Indexes(b, map["a" := 0], map["a" := "u"])
    ensures ok(c, k) && TwoTracks(c, L.Waiting, L.Waiting, 2, 0) && c.asked == b.asked
    ensures Indexes(c, map["a" := 0, "b" := 1], map["a" := "u", "b" := "w"])
    ensures k == h.(recent := h.recent + {"b"})
  {
    c := IsIndexed(ok, b, h, 1);
    k := h.(recent := h.recent + {"b"});
  }

  lemma CountedOutA(ok: Reach, b: Both, h: Seen) returns (c: Both, k: Seen)
    requires Sound(ok) && ok(b, h) && TwoTracks(b, L.Waiting, L.Waiting, 2, 0)
    ensures ok(c, k) && TwoTracks(c, L.Bind, L.Waiting, 2, 1) && c.asked == b.asked
    ensures c.room.index == b.room.index && c.sig == b.sig && k == h.(unasked := h.unasked + {"a"})
  {
    c := Advances(ok, b, h, 0);
    c, k := IsCountedOut(ok, c, h, 0);
  }

  lemma CountedOutB(ok: Reach, b: Both, h: Seen) returns (c: Both, k: Seen)
    requires Sound(ok) && ok(b, h) && TwoTracks(b, L.Bind, L.Waiting, 2, 1)
    ensures ok(c, k) && TwoTracks(c, L.Bind, L.Bind, 2, 2) && c.asked == b.asked + 1
    ensures c.room.index == b.room.index && c.sig == b.sig && k == h.(unasked := {})
  {
    c := Advances(ok, b, h, 1);
    c, k := IsCountedOut(ok, c, h, 1);
  }

  /** Both tracks are counted out, and the second one asks for a pass. */
  ghost predicate PassAsked(b: Both) {
    TwoTracks(b, L.Bind, L.Bind, 2, 2) && b.asked == 1
    && Indexes(b, map["a" := 0, "b" := 1], map["a" := "u", "b" := "w"])
  }

  lemma BothPlay(ok: Reach) returns (b: Both, h: Seen)
    requires Sound(ok)
    ensures ok(b, h) && PassAsked(b) && h == Seen({"u", "w"}, {"a", "b"}, {})
  {
    b := TracksArrive(ok);
    b := CountedIn(ok, b, SETTLED);
    b, h := IndexedA(ok, b, SETTLED);
    b, h := IndexedB(ok, b, h);
    b, h := CountedOutA(ok, b, h);
    b, h := CountedOutB(ok, b, h);
  }

  // ---- "u" leaves and comes back

  lemma CloseSeen(ok: Reach, b: Both, h: Seen, p: nat) returns (c: Both)
    requires Sound(ok) && ok(b, h) && p < |b.room.peers| && !b.room.peers[p].closed && !b.room.peers[p].disconnecting
    requires !b.room.room.deleted
    ensures ok(c, h) && c == b.(room := c.room)
    ensures c.room == b.room.(peers := b.room.peers[p := L.CloseMark(b.room.peers[p])])
  {
    var k: Seen;
    c, k := GoUnseen(ok, b, h, L.Close(p));
  }

  lemma Disconnects(ok: Reach, b: Both, h: Seen, p: nat) returns (c: Both)
    requires Sound(ok) && ok(b, h) && p < |b.room.peers| && b.room.peers[p].disconnecting
    requires L.CanWrite(b.room.room) && b.room.room.ready && !b.room.room.deleted && b.sig.pass.NoPass?
    requires IsConnected(b.room.room, b.room.peers[p].userId)
    ensures var user := b.room.peers[p].userId;
            ok(c, h) && c.asked == b.asked && c.sig == b.sig.(peers := b.sig.peers - {user})
            && c.room == b.room.(room := DisconnectUser(b.room.room, user),
                                 peers := b.room.peers[p := b.room.peers[p].(disconnecting := false)])
            && !c.room.room.deleted
  {
    var k: Seen;
    c, k := Go(ok, b, h, L.Disconnect(p));
  }

  /** Both tracks counted out, the peer servers of both users open. */
  ghost predicate Playing(r: L.Sys) {
    Members2(r.room, true, map["u" := 0, "w" := 1]) && Counts(r.room, 2, 2)
    && r.peers == TwoPeers(map[Audio := 0], map[Audio := 1])
    && r.slices == [AudioSlice("a", 0, L.Bind, true), AudioSlice("b", 1, L.Bind, true)]
    && r.index == map["a" := 0, "b" := 1] && r.ids == {"a", "b"}
  }

  /** As before, with a new peer server of "u". */
  ghost predicate PlayingOn(r: L.Sys) {
    Members2(r.room, true, map["u" := 2, "w" := 1]) && Counts(r.room, 2, 2)
    && |r.peers| == 3 && r.peers[1] == OpenPeer("w", map[Audio := 1]) && r.peers[2] == OpenPeer("u", map[])
    && r.slices == [AudioSlice("a", 0, L.Bind, true), AudioSlice("b", 1, L.Bind, true)]
    && r.index == map["a" := 0, "b" := 1] && r.ids == {"a", "b"}
  }

  lemma Leaves(ok: Reach, b: Both, h: Seen) returns (c: Both)
    requires Sound(ok) && ok(b, h) && Playing(b.room) && b.sig.pass.NoPass?
    ensures ok(c, h) && c.asked == b.asked && c.sig == b.sig.(peers := b.sig.peers - {"u"})
    ensures Members2(c.room.room, false, map["w" := 1]) && Counts(c.room.room, 2, 2)
    ensures |c.room.peers| == 2 && c.room.peers[1] == b.room.peers[1] && c.room.slices == b.room.slices
    ensures c.room.index == b.room.index && c.room.ids == b.room.ids
  {
    LeftByU(b.room.room);
    c := CloseSeen(ok, b, h, 0);
    c := Disconnects(ok, c, h, 0);
  }

  lemma LeftByU(r: Room)
    requires Members2(r, true, map["u" := 0, "w" := 1]) && Counts(r, 2, 2)
    ensures Members2(DisconnectUser(r, "u"), false, map["w" := 1]) && Counts(DisconnectUser(r, "u"), 2, 2)
  {
    assert r.connectedIndex["u" := false] == map["u" := false, "w" := true];
    assert map["u" := 0, "w" := 1] - {"u"} == map["w" := 1];
  }

  lemma RejoinAccepted(r: Room)
    requires Members2(r, false, map["w" := 1]) && Counts(r, 2, 2)
    ensures L.IsAccepted(Join(r, "u").1)
    ensures Members2(Join(r, "u").0, true, map["w" := 1]) && Counts(Join(r, "u").0, 2, 2)
  {
    assert r.connectedIndex["u" := true] == map["u" := true, "w" := true];
  }

  lemma Rejoins(ok: Reach, b: Both, h: Seen) returns (c: Both)
    requires Sound(ok) && ok(b, h) && Playing(b.room) && b.sig.pass.NoPass?
    ensures ok(c, h) && c.asked == b.asked && c.sig == b.sig.(peers := b.sig.peers - {"u"})
    ensures Members2(c.room.room, true, map["w" := 1]) && Counts(c.room.room, 2, 2)
    ensures |c.room.peers| == 2 && c.room.peers[1] == b.room.peers[1] && c.room.slices == b.room.slices
    ensures c.room.index == b.room.index && c.room.ids == b.room.ids && L.Request("u", true) in c.room.pending
  {
    c := Leaves(ok, b, h);
    RejoinAccepted(c.room.room);
    c := Joins(ok, c, h, "u");
  }

  lemma ComesBack(ok: Reach, b: Both, h: Seen) returns (c: Both, k: Seen)
    requires Sound(ok) && ok(b, h) && Playing(b.room) && b.sig.pass.NoPass? && |b.sig.conns| == 2
    ensures ok(c, k) && k == h.(newcomers := h.newcomers + {"u"}) && c.asked == b.asked && PlayingOn(c.room)
    ensures c.sig == b.sig.(conns := b.sig.conns + [T.NewConn("u")], jobs := b.sig.jobs + [S.NotBegun],
                            peers := (b.sig.peers - {"u"})["u" := 2])
  {
    c := Rejoins(ok, b, h);
    Reconnected(c.room.room);
    c := Connects(ok, c, h, "u");
    k := h.(newcomers := h.newcomers + {"u"});
  }

  lemma Reconnected(r: Room)
    requires Members2(r, true, map["w" := 1]) && Counts(r, 2, 2)
    ensures Members2(ConnectPeerServer(r, "u", 2), true, map["u" := 2, "w" := 1])
    ensures Counts(ConnectPeerServer(r, "u", 2), 2, 2)
  {
    assert map["w" := 1]["u" := 2] == map["u" := 2, "w" := 1];
  }

  // ---- passes

  lemma PassBegins(ok: Reach, b: Both, h: Seen) returns (c: Both)
    requires Sound(ok) && ok(b, h) && b.sig.pass.NoPass? && !b.sig.deleted && b.asked > 0
    ensures ok(c, h) && c == b.(asked := b.asked - 1, sig := c.sig)
    ensures c.sig == b.sig.(pass := S.Passing(b.sig.peers.Keys, true, {}))
  {
    var k: Seen;
    c, k := Do(ok, b, h, S.PassBegin(false));
  }

  /** Nothing fails, and the tracks are walked in this order. */
  function Fine(order: seq<TrackId>): T.Env {
    T.Env({}, order, {}, map[], {}, T.OfferEnv(true, true, true))
  }

  /** A visit by a pass, nothing failing: the connection is sent what it should be. */
  ghost predicate VisitMade(g: S.Sig, user: UserId, t: S.Sig)
    requires user in g.peers && S.HasJob(g, g.peers[user]) && g.pass.Passing?
  {
    var p := g.peers[user];
    t.pass == g.pass.(remaining := g.pass.remaining - {user})
    && t == g.(conns := t.conns, index := t.index, odd := t.odd, crossed := t.crossed, pass := t.pass)
    && |t.conns| == |g.conns| && (forall q :: 0 <= q < |g.conns| && q != p ==> t.conns[q] == g.conns[q])
    && t.conns[p].userId == user && T.Sent(t.conns[p].senders) == T.Expected(g.size, user, g.index)
    && t.index.Keys == g.index.Keys && forall id :: id in g.index ==> t.index[id].owner == g.index[id].owner
  }

  lemma UpdateMade(g: S.Sig, user: UserId, env: T.Env)
    requires S.PeersKnown(g) && S.SendersSafe(g) && S.Enabled(g, S.PassPeer(user, env))
    requires env == Fine(env.order) && !g.conns[g.peers[user]].pending
    ensures VisitMade(g, user, S.Next(g, S.PassPeer(user, env)))
  {
    var p := g.peers[user];
    T.UpdateSucceedsIff(g.size, g.conns[p], g.index, env);
    S.UpdateIsUpdate(g, p, env);
  }

  lemma PassVisits(ok: Reach, b: Both, h: Seen, user: UserId, order: seq<TrackId>) returns (c: Both)
    requires Sound(ok) && ok(b, h) && S.Enabled(b.sig, S.PassPeer(user, Fine(order)))
    requires !b.sig.conns[b.sig.peers[user]].pending
    ensures ok(c, h) && c == b.(sig := c.sig) && VisitMade(b.sig, user, c.sig)
  {
    var k: Seen;
    assert Visitable(b);
    UpdateMade(b.sig, user, Fine(order));
    c, k := Do(ok, b, h, S.PassPeer(user, Fine(order)));
  }

  // ---- a pass in the middle of an initial update

  /** The connection 2 of "u" and the tracks "a" of her own and "b" of "w". */
  ghost predicate Third(g: S.Sig, j: S.Job, sent: set<TrackId>) {
    g.size == 2 && g.peers == map["u" := 2, "w" := 1] && !g.deleted
    && |g.conns| == |g.jobs| == 3 && g.jobs[2] == j
    && g.conns[2].userId == "u" && T.Sent(g.conns[2].senders) == sent && !g.conns[1].pending
    && g.index.Keys == {"a", "b"} && g.index["a"].owner == "u" && g.index["b"].owner == "w"
  }

  lemma ThirdMade(g: S.Sig, t: S.Sig)
    requires Quiet(g, [S.Ended, S.Ended]) && g.peers == map["u" := 0, "w" := 1]
    requires g.index.Keys == {"a", "b"} && g.index["a"].owner == "u" && g.index["b"].owner == "w"
    requires t == g.(conns := g.conns + [T.NewConn("u")], jobs := g.jobs + [S.NotBegun],
                     peers := (g.peers - {"u"})["u" := 2])
    ensures Third(t, S.NotBegun, {}) && !t.conns[2].pending && t.conns[2].senders == [] && t.pass.NoPass?
  {
    assert (map["u" := 0, "w" := 1] - {"u"})["u" := 2] == map["u" := 2, "w" := 1];
    assert T.Sent([]) == {};
  }

  lemma BackAgain(ok: Reach) returns (b: Both, h: Seen)
    requires Sound(ok)
    ensures ok(b, h) && b.asked == 1 && b.sig.pass.NoPass? && PlayingOn(b.room)
    ensures Third(b.sig, S.NotBegun, {}) && !b.sig.conns[2].pending && b.sig.conns[2].senders == []
  {
    b, h := BothPlay(ok);
    assert Visitable(b);
    var g := b.sig;
    b, h := ComesBack(ok, b, h);
    ThirdMade(g, b.sig);
  }

  lemma InitialUnderway(ok: Reach) returns (b: Both, h: Seen)
    requires Sound(ok)
    ensures ok(b, h) && Third(b.sig, S.Adding({}, {}, None), {}) && !b.sig.conns[2].pending
    ensures b.sig.pass == S.Passing({"u", "w"}, true, {})
  {
    b, h := BackAgain(ok);
    b := InitialCollects(ok, b, h, 2);
    b := PassBegins(ok, b, h);
    assert map["u" := 2, "w" := 1].Keys == {"u", "w"};
  }

  lemma EachOthers(index: T.SliceIndex)
    requires index.Keys == {"a", "b"} && index["a"].owner == "u" && index["b"].owner == "w"
    ensures T.Expected(2, "u", index) == {"b"} && T.Expected(2, "w", index) == {"a"}
    ensures T.GoodEnv(Fine(["a", "b"]), index)
  {
    assert forall id :: id in ["a", "b"] <==> id in index;
  }

  lemma VisitEnabled(g: S.Sig)
    requires Third(g, S.Adding({}, {}, None), {}) && g.pass == S.Passing({"u", "w"}, true, {})
    ensures S.Enabled(g, S.PassPeer("u", Fine(["a", "b"])))
    ensures T.Expected(g.size, "u", g.index) == {"b"}
  {
    EachOthers(g.index);
  }

  lemma VisitedMidway(ok: Reach) returns (b: Both, h: Seen)
    requires Sound(ok)
    ensures ok(b, h) && Third(b.sig, S.Adding({}, {}, None), {"b"})
  {
    b, h := InitialUnderway(ok);
    VisitEnabled(b.sig);
    b := PassVisits(ok, b, h, "u", ["a", "b"]);
  }

  lemma Fetches(ok: Reach, b: Both, h: Seen, sent: set<TrackId>) returns (c: Both)
    requires Sound(ok) && ok(b, h) && Third(b.sig, S.Adding({}, {}, None), sent)
    ensures ok(c, h) && c == b.(sig := c.sig) && Third(c.sig, S.Adding({}, {"b"}, Some("b")), sent)
    ensures c.sig == S.WithJob(b.sig, 2, S.Adding({}, {"b"}, Some("b")))
  {
    var k: Seen;
    assert {} + {"b"} == {"b"};
    c, k := Do(ok, b, h, S.InitialFetch(2, "b"));
  }

  lemma SentTwice(ok: Reach) returns (b: Both, h: Seen)
    requires Sound(ok)
    ensures ok(b, h) && b.sig.peers == map["u" := 2, "w" := 1]
    ensures |b.sig.conns| == 3 && "b" in T.Doubled(b.sig.conns[2].senders)
  {
    b, h := VisitedMidway(ok);
    b := Fetches(ok, b, h, {"b"});
    var step := S.InitialAdd(2, map[], true);
    S.AddDoubles(b.sig, step);
    b, h := Do(ok, b, h, step);
  }

  /** "u" comes back while the pass asked for by the second track has not begun. Her initial
      update finds nothing sent yet; the pass adds the track of "w" to her connection; the
      initial update adds it again. */
  lemma DoubleSendHappens() returns (b: Both, h: Seen)
    ensures Reaches(b, h) && b.sig.peers == map["u" := 2, "w" := 1]
    ensures |b.sig.conns| == 3 && "b" in T.Doubled(b.sig.conns[2].senders)
  {
    ReachesIsSound();
    b, h := SentTwice((c: Both, k: Seen) => Reaches(c, k));
  }

  // ---- a track added after it has gone

  /** The slice "b" of "w", whose peer server is closed, at the given place. */
  ghost predicate Ending(r: L.Sys, pc: L.Pc) {
    !r.room.deleted && L.CanWrite(r.room) && |r.slices| == 2 && |r.peers| == 3
    && r.slices[1].pc == pc && r.slices[1].peer == 1 && r.slices[1].id == "b" && r.slices[1].kind == Audio
    && r.peers[1].doneCh > 0
    && (pc == L.Bind ==> r.peers[1].pipe == NewPipe(true)) && (pc == L.AwaitStart ==> r.peers[1].pipe.startedCh > 0)
  }

  lemma Ends(ok: Reach, b: Both, h: Seen, pc: L.Pc) returns (c: Both)
    requires Sound(ok) && ok(b, h) && Ending(b.room, pc)
    requires pc in {L.Bind, L.AwaitStart, L.StartCall, L.Select, L.Closing}
    ensures ok(c, h) && c == b.(room := c.room) && c.room.index == b.room.index
    ensures Ending(c.room, L.PcAfter(b.room.room, pc, false))
  {
    var k: Seen;
    c, k := GoUnseen(ok, b, h, L.Advance(1, false));
  }

  lemma SliceEnds(ok: Reach, b: Both, h: Seen) returns (c: Both)
    requires Sound(ok) && ok(b, h) && Ending(b.room, L.Bind)
    ensures ok(c, h) && c == b.(room := c.room) && c.room.index == b.room.index && Ending(c.room, L.Removing)
  {
    c := SliceStarts(ok, b, h);
    c := Ends(ok, c, h, L.Select);
    c := Ends(ok, c, h, L.Closing);
  }

  lemma SliceStarts(ok: Reach, b: Both, h: Seen) returns (c: Both)
    requires Sound(ok) && ok(b, h) && Ending(b.room, L.Bind)
    ensures ok(c, h) && c == b.(room := c.room) && c.room.index == b.room.index && Ending(c.room, L.Select)
  {
    c := Ends(ok, b, h, L.Bind);
    c := Ends(ok, c, h, L.AwaitStart);
    c := Ends(ok, c, h, L.StartCall);
  }

  lemma IsRemoved(ok: Reach, b: Both, h: Seen) returns (c: Both)
    requires Sound(ok) && ok(b, h) && Ending(b.room, L.Removing) && b.sig.pass.NoPass?
    ensures ok(c, h) && c.asked == b.asked && c.sig == b.sig.(index := b.sig.index - {"b"})
  {
    var k: Seen;
    c, k := Go(ok, b, h, L.Advance(1, false));
  }

  lemma OtherLeaves(ok: Reach, b: Both, h: Seen) returns (c: Both)
    requires Sound(ok) && ok(b, h) && PlayingOn(b.room) && b.sig.pass.NoPass?
    ensures ok(c, h) && c.asked == b.asked && c.sig == b.sig.(peers := b.sig.peers - {"w"})
    ensures Ending(c.room, L.Bind)
  {
    c := CloseSeen(ok, b, h, 1);
    c := Disconnects(ok, c, h, 1);
  }

  /** The connection 2 of "u", who is alone, with "b" in the hand of her initial update, and no
      track indexed but her own. */
  ghost predicate HandGone(g: S.Sig, sent: set<TrackId>, pass: S.Pass) {
    g.size == 2 && g.peers == map["u" := 2] && !g.deleted && g.pass == pass
    && |g.conns| == |g.jobs| == 3 && g.jobs[2] == S.Adding({}, {"b"}, Some("b"))
    && g.conns[2].userId == "u" && T.Sent(g.conns[2].senders) == sent
    && g.index.Keys == {"a"} && g.index["a"].owner == "u"
  }

  lemma HandGoneAfter(g: S.Sig, t: S.Sig)
    requires Third(g, S.Adding({}, {"b"}, Some("b")), {}) && g.pass.NoPass?
    requires t == g.(peers := g.peers - {"w"}, index := g.index - {"b"})
    ensures HandGone(t, {}, S.NoPass) && t.peers.Keys == {"u"}
  {
    assert map["u" := 2, "w" := 1] - {"w"} == map["u" := 2];
  }

  lemma GoneInHand(ok: Reach) returns (b: Both, h: Seen)
    requires Sound(ok)
    ensures ok(b, h) && b.asked == 1 && HandGone(b.sig, {}, S.NoPass) && b.sig.peers.Keys == {"u"}
    ensures !b.sig.conns[2].pending
  {
    b, h := BackAgain(ok);
    b := InitialCollects(ok, b, h, 2);
    b := Fetches(ok, b, h, {});
    var g := b.sig;
    b := OtherLeaves(ok, b, h);
    b := SliceEnds(ok, b, h);
    b := IsRemoved(ok, b, h);
    HandGoneAfter(g, b.sig);
  }

  lemma VisitedClean(ok: Reach) returns (b: Both, h: Seen)
    requires Sound(ok)
    ensures ok(b, h) && HandGone(b.sig, {}, S.Passing({}, true, {}))
  {
    b, h := GoneInHand(ok);
    b := PassBegins(ok, b, h);
    OwnOnly(b.sig.index);
    b := PassVisits(ok, b, h, "u", ["a"]);
  }

  lemma OwnOnly(index: T.SliceIndex)
    requires index.Keys == {"a"} && index["a"].owner == "u"
    ensures T.Expected(2, "u", index) == {} && T.GoodEnv(Fine(["a"]), index)
  {
    assert forall id :: id in ["a"] <==> id in index;
  }

  lemma AddsGone(ok: Reach, b: Both, h: Seen) returns (c: Both, k: Seen)
    requires Sound(ok) && ok(b, h) && HandGone(b.sig, {}, S.Passing({}, true, {}))
    ensures ok(c, k) && c.sig.pass == S.Passing({}, true, {"u"})
    ensures c.sig.peers == map["u" := 2] && c.sig.index.Keys == {"a"}
    ensures |c.sig.conns| == 3 && T.Sent(c.sig.conns[2].senders) == {"b"}
  {
    T.PlaceFacts(b.sig.conns[2].senders, "b", map[]);
    c, k := Do(ok, b, h, S.InitialAdd(2, map[], true));
  }

  /** The initial update of "u" takes the track of "w" in hand; "w" leaves and the track goes; the
      pass visits "u", who is sent nothing; the initial update adds the track. The pass ends with
      success, no removal having failed, and "u" is sent a track that is gone. */
  lemma GoneTrackCanBeSent() returns (b: Both, h: Seen, c: Both, k: Seen)
    ensures Reaches(b, h) && Reaches(c, k) && Follows(b, Signal(S.PassEnd), c)
    ensures b.sig.pass.Passing? && b.sig.pass.clean && c.sig.peers == map["u" := 2] && "b" !in c.sig.index
    ensures |c.sig.conns| == 3 && T.Sent(c.sig.conns[2].senders) == {"b"}
  {
    ReachesIsSound();
    var ok := (d: Both, l: Seen) => Reaches(d, l);
    b, h := VisitedClean(ok);
    b, h := AddsGone(ok, b, h);
    c, k := PassEnds(ok, b, h);
  }

  // ---- a track no pass is asked for

  /** The connections of "u" and "w", what they are sent, and whether the latter still waits for
      its visit. */
  ghost predicate TwoConns(g: S.Sig, sentU: set<TrackId>, sentW: set<TrackId>, pass: S.Pass) {
    g.size == 2 && g.peers == map["u" := 0, "w" := 1] && g.pass == pass
    && !g.deleted && !g.owed && g.retries == 0
    && |g.conns| == 2 && g.jobs == [S.Ended, S.Ended] && g.conns[0].userId == "u" && g.conns[1].userId == "w"
    && T.Sent(g.conns[0].senders) == sentU && T.Sent(g.conns[1].senders) == sentW
    && g.index.Keys == {"a", "b"} && g.index["a"].owner == "u" && g.index["b"].owner == "w"
    && g.owners.Keys == {"a", "b"}
  }

  lemma QuietConns(g: S.Sig)
    requires S.PeersKnown(g) && Quiet(g, [S.Ended, S.Ended]) && g.peers == map["u" := 0, "w" := 1]
    requires g.index.Keys == g.owners.Keys == {"a", "b"} && g.index["a"].owner == "u" && g.index["b"].owner == "w"
    ensures TwoConns(g, {}, {}, S.NoPass) && g.peers.Keys == {"u", "w"}
  {
    assert T.Sent([]) == {};
    assert g.conns[g.peers["u"]].userId == "u" && g.conns[g.peers["w"]].userId == "w";
  }

  lemma ReadyForPass(ok: Reach) returns (b: Both, h: Seen)
    requires Sound(ok)
    ensures ok(b, h) && b.asked == 1 && Playing(b.room) && h.unasked == {}
    ensures TwoConns(b.sig, {}, {}, S.NoPass) && b.sig.peers.Keys == {"u", "w"}
    ensures !b.sig.conns[0].pending && !b.sig.conns[1].pending
  {
    b, h := BothPlay(ok);
    assert Visitable(b);
    QuietConns(b.sig);
  }

  lemma PassStarts(ok: Reach) returns (b: Both, h: Seen)
    requires Sound(ok)
    ensures ok(b, h) && b.asked == 0 && Playing(b.room) && h.unasked == {}
    ensures TwoConns(b.sig, {}, {}, S.Passing({"u", "w"}, true, {}))
    ensures !b.sig.conns[0].pending && !b.sig.conns[1].pending
  {
    b, h := ReadyForPass(ok);
    b := PassBegins(ok, b, h);
  }

  lemma FirstVisit(ok: Reach, b: Both, h: Seen) returns (c: Both)
    requires Sound(ok) && ok(b, h) && TwoConns(b.sig, {}, {}, S.Passing({"u", "w"}, true, {}))
    requires !b.sig.conns[0].pending && !b.sig.conns[1].pending
    ensures ok(c, h) && c == b.(sig := c.sig) && TwoConns(c.sig, {"b"}, {}, S.Passing({"w"}, true, {}))
    ensures !c.sig.conns[1].pending
  {
    EachOthers(b.sig.index);
    c := PassVisits(ok, b, h, "u", ["a", "b"]);
  }

  lemma SecondVisit(ok: Reach, b: Both, h: Seen) returns (c: Both)
    requires Sound(ok) && ok(b, h) && TwoConns(b.sig, {"b"}, {}, S.Passing({"w"}, true, {})) && !b.sig.conns[1].pending
    ensures ok(c, h) && c == b.(sig := c.sig) && TwoConns(c.sig, {"b"}, {"a"}, S.Passing({}, true, {}))
  {
    EachOthers(b.sig.index);
    c := PassVisits(ok, b, h, "w", ["a", "b"]);
  }

  lemma PassMade(ok: Reach) returns (b: Both, h: Seen)
    requires Sound(ok)
    ensures ok(b, h) && Playing(b.room) && h == Seen({}, {}, {})
    ensures TwoConns(b.sig, {"b"}, {"a"}, S.NoPass) && b.asked == 0
  {
    b, h := PassStarts(ok);
    b := FirstVisit(ok, b, h);
    b := SecondVisit(ok, b, h);
    b, h := PassEnds(ok, b, h);
  }

  lemma PassEnds(ok: Reach, b: Both, h: Seen) returns (c: Both, k: Seen)
    requires Sound(ok) && ok(b, h) && b.sig.pass.Passing? && b.sig.pass.remaining == {}
    ensures ok(c, k) && Follows(b, Signal(S.PassEnd), c)
    ensures c == b.(sig := b.sig.(pass := S.NoPass, owed := false))
    ensures k == h.(newcomers := {}, recent := {})
  {
    c, k := Do(ok, b, h, S.PassEnd);
  }

  /** "u" is back, and has a new audio track "c" at the given place; "w" is sent her old one. */
  ghost predicate NewTrack(b: Both, pc: L.Pc, outs: nat) {
    Members2(b.room.room, true, map["u" := 2, "w" := 1]) && Counts(b.room.room, 2, outs)
    && |b.room.peers| == 3 && b.room.peers[2].userId == "u"
    && b.room.slices
       == [AudioSlice("a", 0, L.Bind, true), AudioSlice("b", 1, L.Bind, true), AudioSlice("c", 2, pc, false)]
    && Settled(b) && b.sig.retries == 0 && b.sig.peers == map["u" := 2, "w" := 1]
    && |b.sig.conns| == |b.sig.jobs| == 3 && b.sig.jobs[1] == S.Ended && T.Sent(b.sig.conns[1].senders) == {"a"}
  }

  lemma BackAfterPass(ok: Reach) returns (b: Both, h: Seen)
    requires Sound(ok)
    ensures ok(b, h) && h == Seen({"u"}, {}, {}) && PlayingOn(b.room)
    ensures Settled(b) && b.sig.retries == 0 && b.sig.peers == map["u" := 2, "w" := 1]
    ensures |b.sig.conns| == |b.sig.jobs| == 3 && b.sig.jobs[1] == S.Ended
    ensures T.Sent(b.sig.conns[1].senders) == {"a"} && "c" !in b.sig.owners
  {
    b, h := PassMade(ok);
    b, h := ComesBack(ok, b, h);
    assert {} + {"u"} == {"u"};
    assert Visitable(b);
  }

  lemma NewTrackArrives(ok: Reach) returns (b: Both, h: Seen)
    requires Sound(ok)
    ensures ok(b, h) && h == Seen({"u"}, {}, {}) && NewTrack(b, L.Create, 2) && "c" !in b.sig.owners
    ensures b.room.index == map["a" := 0, "b" := 1]
  {
    b, h := BackAfterPass(ok);
    b := Arrives(ok, b, h, 2, "c");
    b := Advances(ok, b, h, 2);
  }

  lemma NewTrackIndexed(ok: Reach) returns (b: Both, h: Seen)
    requires Sound(ok)
    ensures ok(b, h) && h == Seen({"u"}, {"c"}, {}) && NewTrack(b, L.Waiting, 2)
    ensures b.room.index == map["a" := 0, "b" := 1, "c" := 2]
  {
    b, h := NewTrackArrives(ok);
    b := IsIndexed(ok, b, h, 2);
    h := h.(recent := h.recent + {"c"});
    assert map["a" := 0, "b" := 1]["c" := 2] == map["a" := 0, "b" := 1, "c" := 2];
  }

  lemma Unasked(ok: Reach) returns (b: Both, h: Seen)
    requires Sound(ok)
    ensures ok(b, h) && Settled(b) && b.sig.retries == 0
    ensures forall k :: 0 <= k < |b.room.slices| ==> L.IsOut(b.room.slices[k])
    ensures "w" in b.room.room.peerServerIndex && "c" in LiveTracksOfOthers(b.room, "w")
    ensures !Given(b.sig, "w", "c") && "w" !in h.newcomers && "c" in h.unasked
  {
    b, h := NewTrackIndexed(ok);
    b := Advances(ok, b, h, 2);
    b, h := IsCountedOut(ok, b, h, 2);
    NotSent(b);
  }

  lemma NotSent(b: Both)
    requires Members2(b.room.room, true, map["u" := 2, "w" := 1])
    requires |b.room.peers| == 3 && b.room.peers[2].userId == "u"
    requires |b.room.slices| == 3 && b.room.slices[2] == AudioSlice("c", 2, L.Bind, false)
    requires b.sig.peers == map["u" := 2, "w" := 1] && |b.sig.conns| == 3 && T.Sent(b.sig.conns[1].senders) == {"a"}
    ensures "c" in LiveTracksOfOthers(b.room, "w") && !Given(b.sig, "w", "c")
  {
    assert L.IsIndexed(b.room.slices[2]) && b.room.slices[2].id == "c";
  }

  /** "u" comes back while her old slice is still counted: her new track brings the count to 3,
      and nobody asks for a pass. When everything asked for is done, "w" is not sent it. */
  lemma TrackCanGoUnasked() returns (b: Both, h: Seen)
    ensures Reaches(b, h) && Settled(b) && b.sig.retries == 0
    ensures forall k :: 0 <= k < |b.room.slices| ==> L.IsOut(b.room.slices[k])
    ensures "w" in b.room.room.peerServerIndex && "c" in LiveTracksOfOthers(b.room, "w")
    ensures !Given(b.sig, "w", "c") && "w" !in h.newcomers && "c" in h.unasked
  {
    ReachesIsSound();
    b, h := Unasked((c: Both, k: Seen) => Reaches(c, k));
  }
}
