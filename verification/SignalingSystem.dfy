/** The signaling of one room as a transition system: tracks come and go, peers connect and
    leave, passes of managedSignalingForEveryone run peer by peer while offers, answers,
    receiver reports and encoder ticks interleave (sfu/mixer.go, sfu/peer_server.go,
    sfu/mixer_slice.go, sfu/sender_controller.go). */
module SignalingSystem {
  import opened Base
  import opened PipelineProtocol
  import opened RateControl
  import opened Tracks

  /** A pass in progress: peers still to visit, whether every removal succeeded, and (history)
      the peers to which, after their visit, an initial update added a track already gone. */
  datatype Pass = NoPass | Passing(remaining: set<UserId>, clean: bool, spoiled: set<UserId>)

  /** How far the initial update of a peer connection is. It holds no lock, so anything may
      happen between its steps: cleaning, sender by sender; collecting what is already sent;
      then, track by track, taking an entry of the mixer's index in hand and adding it. */
  datatype Job =
    | NotBegun
    | Cleaning
    | Adding(already: set<TrackId>, walked: set<TrackId>, hand: Option<TrackId>)
    | Ended

  datatype Sig = Sig(
    size: nat,
    gcc: bool,
    index: SliceIndex,              // mixer.sliceIndex
    conns: seq<Conn>,               // every peer connection ever made
    jobs: seq<Job>,                 // its initial update
    peers: map<UserId, nat>,        // interaction.peerServerIndex
    pass: Pass,                     // who holds the mixer lock
    retries: nat,                   // goroutines sleeping before a new pass
    deleted: bool,
    owners: map<TrackId, UserId>,   // history: the producer of every track ever indexed
    odd: set<(UserId, TrackId)>,    // history: senders made without exactly one encoding
    crossed: set<(nat, TrackId)>,   // history: tracks a pass added after the initial update had collected
    owed: bool                      // history: the last pass to finish failed
  )

  datatype Step =
    | IndexSlice(id: TrackId, owner: UserId, kind: Kind)
    | RemoveSlice(id: TrackId)
    | ConnectPeer(user: UserId)
    | DisconnectPeer(user: UserId)
    | InitialBegin(p: nat)
    | InitialClean(p: nat, i: nat, fails: bool)
    | InitialCollect(p: nat)
    | InitialFetch(p: nat, id: TrackId)
    | InitialAdd(p: nat, slots: map<TrackId, nat>, oneEncoding: bool)
    | InitialGivesUp(p: nat)
    | InitialOffer(p: nat, offer: OfferEnv)
    | OfferTrigger(p: nat, offer: OfferEnv)
    | Answer(p: nat)
    | PassBegin(isRetry: bool)
    | PassPeer(user: UserId, env: Env)
    | PassEnd
    | LossReport(id: TrackId, user: UserId, loss: FractionLost)
    | TargetChange(id: TrackId, user: UserId, bitrate: int)
    | EncoderTick(id: TrackId, rate: nat)
    | DeleteRoom

  function Rate(c: Controller, gcc: bool): nat {
    if gcc then c.cc else c.loss
  }

  /** What the encoder loop computes: the least rate of all controllers. */
  ghost predicate IsMinRate(rate: nat, controllers: map<UserId, Controller>, gcc: bool) {
    (exists u :: u in controllers && Rate(controllers[u], gcc) == rate)
    && forall u :: u in controllers ==> rate <= Rate(controllers[u], gcc)
  }

  ghost predicate HasController(s: Sig, id: TrackId, user: UserId) {
    id in s.index && user in s.index[id].controllers
  }

  predicate HandFull(j: Job) {
    j.Adding? && j.hand.Some?
  }

  predicate HandEmpty(j: Job) {
    j.Adding? && j.hand.None?
  }

  predicate HasJob(s: Sig, p: nat) {
    p < |s.conns| && p < |s.jobs|
  }

  /** Indexing and removing take the mixer lock and (dis)connecting takes the interaction's
      write lock: a running pass keeps all four out. A track id is indexed once. */
  ghost predicate Enabled(s: Sig, step: Step) {
    match step
    case IndexSlice(id, _, _) => s.pass.NoPass? && id !in s.owners
    case RemoveSlice(_) => s.pass.NoPass?
    case ConnectPeer(_) => s.pass.NoPass?
    case DisconnectPeer(_) => s.pass.NoPass?
    case InitialBegin(p) => HasJob(s, p) && s.jobs[p].NotBegun?
    case InitialClean(p, i, _) => HasJob(s, p) && s.jobs[p].Cleaning? && i < |s.conns[p].senders|
    case InitialCollect(p) => HasJob(s, p) && s.jobs[p].Cleaning?
    case InitialFetch(p, id) =>
      HasJob(s, p) && HandEmpty(s.jobs[p]) && id in s.index && id !in s.jobs[p].walked
    case InitialAdd(p, _, _) => HasJob(s, p) && HandFull(s.jobs[p])
    case InitialGivesUp(p) => HasJob(s, p) && HandFull(s.jobs[p])
    case InitialOffer(p, _) => HasJob(s, p) && HandEmpty(s.jobs[p])
    case OfferTrigger(p, _) => p < |s.conns|
    case Answer(p) => p < |s.conns|
    case PassBegin(isRetry) => s.pass.NoPass? && (isRetry ==> s.retries > 0)
    case PassPeer(user, env) =>
      s.pass.Passing? && user in s.pass.remaining && user in s.peers && HasJob(s, s.peers[user])
      && GoodEnv(env, s.index)
    case PassEnd => s.pass.Passing? && s.pass.remaining == {}
    case LossReport(id, user, _) => HasController(s, id, user)
    case TargetChange(id, user, _) => HasController(s, id, user)
    case EncoderTick(id, rate) =>
      id in s.index && s.index[id].kind == Video && IsMinRate(rate, s.index[id].controllers, s.gcc)
    case DeleteRoom => true
  }

  function NewOdd(s: Sig, p: nat, env: Env, u: Updated): set<(UserId, TrackId)>
    requires p < |s.conns|
  {
    s.odd + set id | id in env.oddEncodings && id in Sent(u.conn.senders) && id !in Sent(s.conns[p].senders) ::
              (s.conns[p].userId, id)
  }

  function NewCrossed(s: Sig, p: nat, u: Updated): set<(nat, TrackId)>
    requires HasJob(s, p)
  {
    if s.jobs[p].Adding?
    then s.crossed + set id | id in Sent(u.conn.senders) && id !in Sent(s.conns[p].senders) :: (p, id)
    else s.crossed
  }

  function WithUpdated(s: Sig, p: nat, env: Env, u: Updated): Sig
    requires HasJob(s, p)
  {
    s.(conns := s.conns[p := u.conn], index := u.index, odd := NewOdd(s, p, env, u),
       crossed := NewCrossed(s, p, u))
  }

  function Update(s: Sig, p: nat, env: Env): Updated
    requires p < |s.conns|
  {
    UpdateTracksAndShareOffer(s.size, s.conns[p], s.index, env)
  }

  /** One turn of the loop over the peers: go on, or give up and leave a retry. */
  function AfterVisit(s: Sig, user: UserId, env: Env, u: Updated): Sig
    requires s.pass.Passing? && user in s.peers && HasJob(s, s.peers[user])
  {
    var t := WithUpdated(s, s.peers[user], env, u);
    if u.ok
    then t.(pass := s.pass.(remaining := s.pass.remaining - {user}, clean := s.pass.clean && env.removeFails == {}))
    else t.(pass := NoPass, retries := s.retries + 1, owed := true)
  }

  function WithController(s: Sig, id: TrackId, user: UserId, c: Controller): Sig
    requires id in s.index
  {
    s.(index := s.index[id := s.index[id].(controllers := s.index[id].controllers[user := c])])
  }

  function WithJob(s: Sig, p: nat, j: Job): Sig
    requires p < |s.jobs|
  {
    s.(jobs := s.jobs[p := j])
  }

  function WithSenders(s: Sig, p: nat, senders: Senders): Sig
    requires p < |s.conns|
  {
    s.(conns := s.conns[p := s.conns[p].(senders := senders)])
  }

  /** A track met by the walk: already sent, or the user's own, or now in hand. */
  function Fetched(s: Sig, p: nat, id: TrackId): Job
    requires HasJob(s, p) && s.jobs[p].Adding? && id in s.index
  {
    var j := s.jobs[p];
    var skip := id in j.already || (s.size != 1 && s.index[id].owner == s.conns[p].userId);
    Adding(j.already, j.walked + {id}, if skip then None else Some(id))
  }

  /** A running pass, when a track is added to connection p. */
  function PassOnAdd(s: Sig, p: nat, id: TrackId): Pass
    requires HasJob(s, p)
  {
    var user := s.conns[p].userId;
    if s.pass.Passing? && user in s.peers && s.peers[user] == p && user !in s.pass.remaining && id !in s.index
    then s.pass.(spoiled := s.pass.spoiled + {user})
    else s.pass
  }

  /** The track in hand is added, and its slice given a controller, wherever the slice is by
      now. */
  function WithAdded(s: Sig, p: nat, slots: map<TrackId, nat>, oneEncoding: bool): Sig
    requires HasJob(s, p) && HandFull(s.jobs[p])
  {
    var id, user := s.jobs[p].hand.value, s.conns[p].userId;
    WithJob(WithSenders(s, p, PlaceTrack(s.conns[p].senders, id, slots)), p, s.jobs[p].(hand := None))
      .(index := if id in s.index then AddSender(s.index, id, user, oneEncoding) else s.index,
        odd := if oneEncoding then s.odd else s.odd + {(user, id)},
        pass := PassOnAdd(s, p, id))
  }

  ghost function Next(s: Sig, step: Step): Sig
    requires Enabled(s, step)
  {
    match step
    case IndexSlice(id, owner, kind) =>
      s.(index := s.index[id := Slice(owner, kind, map[], 0)], owners := s.owners[id := owner])
    case RemoveSlice(id) => s.(index := s.index - {id})
    case ConnectPeer(user) =>
      s.(conns := s.conns + [NewConn(user)], jobs := s.jobs + [NotBegun], peers := s.peers[user := |s.conns|])
    case DisconnectPeer(user) => s.(peers := s.peers - {user})
    case InitialBegin(p) => WithJob(s, p, Cleaning)
    case InitialClean(p, i, fails) =>
      var senders := s.conns[p].senders;
      WithSenders(s, p, senders[i := CleanSender(senders[i], Live(senders[i], s.index), fails)])
    case InitialCollect(p) => WithJob(s, p, Adding(AlreadySent(s.conns[p].senders, s.index), {}, None))
    case InitialFetch(p, id) => WithJob(s, p, Fetched(s, p, id))
    case InitialAdd(p, slots, oneEncoding) => WithAdded(s, p, slots, oneEncoding)
    case InitialGivesUp(p) => WithJob(s, p, Ended)
    case InitialOffer(p, offer) => WithJob(s.(conns := s.conns[p := ShareOffer(s.conns[p], offer).0]), p, Ended)
    case OfferTrigger(p, offer) => s.(conns := s.conns[p := ShareOffer(s.conns[p], offer).0])
    case Answer(p) => s.(conns := s.conns[p := ApplyAnswer(s.conns[p])])
    case PassBegin(isRetry) =>
      s.(retries := if isRetry then s.retries - 1 else s.retries,
         pass := if s.deleted then NoPass else Passing(s.peers.Keys, true, {}))
    case PassPeer(user, env) =>
      AfterVisit(s, user, env, Update(s, s.peers[user], env))
    case PassEnd => s.(pass := NoPass, owed := false)
    case LossReport(id, user, loss) =>
      var c := s.index[id].controllers[user];
      WithController(s, id, user, c.(loss := UpdatedRate(ConfigOf(s.index[id].kind), c.loss, loss)))
    case TargetChange(id, user, bitrate) =>
      var c := s.index[id].controllers[user];
      WithController(s, id, user, c.(cc := CapRate(ConfigOf(s.index[id].kind), bitrate)))
    case EncoderTick(id, rate) =>
      if rate > 0 then s.(index := s.index[id := s.index[id].(target := rate)]) else s
    case DeleteRoom => s.(deleted := true)
  }

  ghost predicate Init(s: Sig) {
    s.index == map[] && s.conns == [] && s.jobs == [] && s.peers == map[] && s.pass == NoPass && s.retries == 0
    && !s.deleted && s.owners == map[] && s.odd == {} && s.crossed == {} && !s.owed
  }

  // ---- the invariant

  ghost predicate PeersKnown(s: Sig) {
    |s.jobs| == |s.conns|
    && (forall u :: u in s.peers ==> s.peers[u] < |s.conns| && s.conns[s.peers[u]].userId == u)
    && (s.pass.Passing? ==> s.pass.remaining <= s.peers.Keys && s.pass.remaining !! s.pass.spoiled)
    && OwnersKnown(s.index, s.owners)
  }

  /** No peer is sent a track of its own unless the room is a mirror; nor a track twice, unless
      a pass added it after the initial update had collected what was sent. */
  ghost predicate SendersSafe(s: Sig) {
    forall p :: 0 <= p < |s.conns| ==> ConnSafe(s, p)
  }

  ghost predicate ConnSafe(s: Sig, p: nat)
    requires p < |s.conns|
  {
    NoneOfOwn(s.size, s.conns[p], s.owners)
    && forall id :: id in Doubled(s.conns[p].senders) ==> (p, id) in s.crossed
  }

  ghost predicate MayReceive(s: Sig, p: nat, id: TrackId)
    requires p < |s.conns|
  {
    id in s.owners && (s.size == 1 || s.owners[id] != s.conns[p].userId)
  }

  /** What an initial update has in hand is wanted; and unless a pass added it meanwhile, not
      sent yet. An indexed track that is sent, and that it has not met, it has collected, again
      unless a pass added it meanwhile. */
  ghost predicate JobGood(s: Sig, p: nat, j: Job)
    requires p < |s.conns|
  {
    (HandFull(j) ==> HandGood(s, p, j))
    && (j.Adding? ==> forall id :: id in Sent(s.conns[p].senders) && id in s.index && id !in j.walked ==>
          id in j.already || (p, id) in s.crossed)
  }

  ghost predicate HandGood(s: Sig, p: nat, j: Job)
    requires p < |s.conns| && HandFull(j)
  {
    MayReceive(s, p, j.hand.value) && j.hand.value in j.walked
    && (j.hand.value in Sent(s.conns[p].senders) ==> (p, j.hand.value) in s.crossed)
  }

  ghost predicate JobsGood(s: Sig)
    requires |s.jobs| == |s.conns|
  {
    forall p :: 0 <= p < |s.conns| ==> JobGood(s, p, s.jobs[p])
  }

  /** Local descriptions set and answers applied differ by the one pending offer. */
  ghost predicate OneOffer(s: Sig) {
    forall p :: 0 <= p < |s.conns| ==> OneOfferOut(s.conns[p])
  }

  ghost predicate Complete(s: Sig, u: UserId)
    requires u in s.peers && s.peers[u] < |s.conns|
  {
    var c := s.conns[s.peers[u]];
    Expected(s.size, u, s.index) <= Sent(c.senders)
    && Expected(s.size, u, s.index) <= c.offered
  }

  ghost predicate Exact(s: Sig, u: UserId)
    requires u in s.peers && s.peers[u] < |s.conns|
  {
    Sent(s.conns[s.peers[u]].senders) == Expected(s.size, u, s.index)
  }

  /** The user is sent a track that is gone, and her initial update no longer cleans. */
  ghost predicate Stale(s: Sig, u: UserId)
    requires u in s.peers && HasJob(s, s.peers[u])
  {
    !(Sent(s.conns[s.peers[u]].senders) <= s.index.Keys)
    && !s.jobs[s.peers[u]].NotBegun? && !s.jobs[s.peers[u]].Cleaning?
  }

  /** A peer the pass has visited. */
  ghost predicate Done(s: Sig, u: UserId)
    requires u in s.peers && HasJob(s, s.peers[u]) && s.pass.Passing?
  {
    Complete(s, u) && (if u in s.pass.spoiled then Stale(s, u) else s.pass.clean ==> Exact(s, u))
  }

  /** The part of a pass already done stays done, whatever runs beside it. */
  ghost predicate PassProgress(s: Sig)
    requires PeersKnown(s)
  {
    s.pass.Passing? ==> forall u :: u in s.peers && u !in s.pass.remaining ==> Done(s, u)
  }

  /** Whoever is sent an indexed track has a controller on its slice. */
  ghost predicate Controlled(s: Sig) {
    forall p, id :: 0 <= p < |s.conns| && id in Sent(s.conns[p].senders) && id in s.index ==>
      HasController(s, id, s.conns[p].userId) || (s.conns[p].userId, id) in s.odd
  }

  ghost predicate GoodController(kind: Kind, c: Controller) {
    InRange(ConfigOf(kind), c.loss) && (c.cc == 0 || InRange(ConfigOf(kind), c.cc))
  }

  ghost predicate GoodSlice(slice: Slice) {
    (forall u :: u in slice.controllers ==> GoodController(slice.kind, slice.controllers[u]))
    && (slice.target == 0 || InRange(VIDEO_CONFIG, slice.target))
  }

  ghost predicate RatesGood(s: Sig) {
    forall id :: id in s.index ==> GoodSlice(s.index[id])
  }

  /** A failed pass is followed by another until one succeeds or the room is deleted. */
  ghost predicate RetryAlive(s: Sig) {
    s.owed ==> s.retries > 0 || s.pass.Passing? || s.deleted
  }

  ghost predicate Inv(s: Sig) {
    PeersKnown(s) && SendersSafe(s) && JobsGood(s) && OneOffer(s) && PassProgress(s) && Controlled(s)
    && RatesGood(s) && RetryAlive(s)
  }

  lemma InitInv(s: Sig)
    requires Init(s)
    ensures Inv(s)
  {
  }

  lemma ExpectedFrame(size: nat, u: UserId, before: SliceIndex, after: SliceIndex)
    requires after.Keys == before.Keys
    requires forall id :: id in before ==> after[id].owner == before[id].owner
    ensures Expected(size, u, after) == Expected(size, u, before)
  {
  }

  ghost predicate UpdateOf(s: Sig, p: nat, env: Env, u: Updated) {
    HasJob(s, p) && UpdateEffect(s.size, s.conns[p], s.index, env, s.owners, u)
  }

  lemma UpdateIsUpdate(s: Sig, p: nat, env: Env)
    requires PeersKnown(s) && SendersSafe(s) && HasJob(s, p) && GoodEnv(env, s.index)
    ensures UpdateOf(s, p, env, Update(s, p, env))
  {
    assert ConnSafe(s, p);
    UpdateFacts(s.size, s.conns[p], s.index, env, s.owners);
  }

  lemma UpdateKeepsControlled(s: Sig, p: nat, env: Env, u: Updated)
    requires Controlled(s) && UpdateOf(s, p, env, u)
    ensures Controlled(WithUpdated(s, p, env, u))
  {
    var t := WithUpdated(s, p, env, u);
    forall q, id | 0 <= q < |t.conns| && id in Sent(t.conns[q].senders) && id in t.index
      ensures HasController(t, id, t.conns[q].userId) || (t.conns[q].userId, id) in t.odd
    {
      assert s.index[id].controllers.Keys <= t.index[id].controllers.Keys;
      if q == p && id !in Sent(s.conns[p].senders) {
      } else {
        assert HasController(s, id, s.conns[q].userId) || (s.conns[q].userId, id) in s.odd;
      }
    }
  }

  lemma UpdateKeepsRates(s: Sig, p: nat, env: Env, u: Updated)
    requires RatesGood(s) && UpdateOf(s, p, env, u)
    ensures RatesGood(WithUpdated(s, p, env, u))
  {
    var t := WithUpdated(s, p, env, u);
    forall id | id in t.index ensures GoodSlice(t.index[id]) {
      assert GoodSlice(s.index[id]);
    }
  }

  /** What a visit to peer connection p keeps. */
  lemma UpdateKeeps(s: Sig, p: nat, env: Env, u: Updated)
    requires PeersKnown(s) && SendersSafe(s) && OneOffer(s) && UpdateOf(s, p, env, u)
    ensures var t := WithUpdated(s, p, env, u); PeersKnown(t) && SendersSafe(t) && OneOffer(t)
  {
    var t := WithUpdated(s, p, env, u);
    forall q | 0 <= q < |t.conns| ensures ConnSafe(t, q) {
      assert ConnSafe(s, q);
    }
  }

  lemma UpdateKeepsJobs(s: Sig, p: nat, env: Env, u: Updated)
    requires |s.jobs| == |s.conns| && JobsGood(s) && UpdateOf(s, p, env, u)
    ensures JobsGood(WithUpdated(s, p, env, u))
  {
    var t := WithUpdated(s, p, env, u);
    forall q | 0 <= q < |t.conns| ensures JobGood(t, q, t.jobs[q]) {
      assert JobGood(s, q, s.jobs[q]);
    }
  }

  /** A visit keeps what other peers have. */
  lemma UpdateKeepsDone(s: Sig, p: nat, env: Env, u: Updated, user: UserId)
    requires PeersKnown(s) && UpdateOf(s, p, env, u)
    requires user in s.peers && s.peers[user] != p && s.pass.Passing? && Done(s, user)
    ensures Done(WithUpdated(s, p, env, u), user)
  {
    ExpectedFrame(s.size, user, s.index, u.index);
  }

  lemma PassPeerInv(s: Sig, user: UserId, env: Env)
    requires Inv(s) && Enabled(s, PassPeer(user, env))
    ensures Inv(Next(s, PassPeer(user, env)))
  {
    var p := s.peers[user];
    UpdateIsUpdate(s, p, env);
    PassPeerStep(s, user, env, Update(s, p, env));
  }

  lemma PassPeerStep(s: Sig, user: UserId, env: Env, u: Updated)
    requires Inv(s) && s.pass.Passing? && user in s.pass.remaining && user in s.peers
    requires UpdateOf(s, s.peers[user], env, u)
    ensures Inv(AfterVisit(s, user, env, u))
  {
    var p := s.peers[user];
    var w, t := WithUpdated(s, p, env, u), AfterVisit(s, user, env, u);
    assert PeersKnown(w) && SendersSafe(w) && OneOffer(w) by { UpdateKeeps(s, p, env, u); }
    assert JobsGood(w) by { UpdateKeepsJobs(s, p, env, u); }
    assert Controlled(w) by { UpdateKeepsControlled(s, p, env, u); }
    assert RatesGood(w) by { UpdateKeepsRates(s, p, env, u); }
    SameRoomSameFacts(w, t);
    VisitKeepsProgress(s, user, env, u);
  }

  /** Pass, retries and owed play no part in these. */
  lemma SameRoomSameFacts(w: Sig, t: Sig)
    requires PeersKnown(w) && SendersSafe(w) && JobsGood(w) && OneOffer(w) && Controlled(w) && RatesGood(w)
    requires t == w.(pass := t.pass, retries := t.retries, owed := t.owed)
    requires t.pass.Passing? ==> t.pass.remaining <= w.peers.Keys && t.pass.remaining !! t.pass.spoiled
    ensures PeersKnown(t) && SendersSafe(t) && JobsGood(t) && OneOffer(t) && Controlled(t) && RatesGood(t)
  {
    forall p | 0 <= p < |t.conns| ensures ConnSafe(t, p) && JobGood(t, p, t.jobs[p]) {
      assert ConnSafe(w, p) && JobGood(w, p, w.jobs[p]);
    }
    forall p, id | 0 <= p < |t.conns| && id in Sent(t.conns[p].senders) && id in t.index
      ensures HasController(t, id, t.conns[p].userId) || (t.conns[p].userId, id) in t.odd
    {
      assert HasController(w, id, w.conns[p].userId) || (w.conns[p].userId, id) in w.odd;
    }
  }

  lemma VisitKeepsProgress(s: Sig, user: UserId, env: Env, u: Updated)
    requires PeersKnown(s) && PassProgress(s)
    requires s.pass.Passing? && user in s.pass.remaining && user in s.peers
    requires UpdateOf(s, s.peers[user], env, u)
    requires PeersKnown(AfterVisit(s, user, env, u))
    ensures PassProgress(AfterVisit(s, user, env, u))
  {
    var t := AfterVisit(s, user, env, u);
    if u.ok {
      forall w | w in t.peers && w !in t.pass.remaining ensures Done(t, w) {
        if w == user {
          VisitedIsDone(s, user, env, u);
        } else {
          assert Done(s, w);
          UpdateKeepsDone(s, s.peers[user], env, u, w);
        }
      }
    }
  }

  lemma VisitedIsDone(s: Sig, user: UserId, env: Env, u: Updated)
    requires PeersKnown(s) && user in s.peers && UpdateOf(s, s.peers[user], env, u) && u.ok
    ensures var t := WithUpdated(s, s.peers[user], env, u);
            Complete(t, user) && (env.removeFails == {} ==> Exact(t, user))
  {
    ExpectedFrame(s.size, user, s.index, u.index);
  }

  // ---- the steps of an initial update

  /** Another place of one initial update, the connection unchanged. */
  lemma OtherJob(s: Sig, p: nat, j: Job)
    requires Inv(s) && p < |s.conns| && JobGood(s, p, j)
    requires j.NotBegun? || j.Cleaning? ==> s.jobs[p].NotBegun?
    ensures Inv(WithJob(s, p, j))
  {
    var t := WithJob(s, p, j);
    forall q | 0 <= q < |t.conns| ensures ConnSafe(t, q) && JobGood(t, q, t.jobs[q]) {
      assert ConnSafe(s, q) && JobGood(s, q, s.jobs[q]);
    }
    forall q, id | 0 <= q < |t.conns| && id in Sent(t.conns[q].senders) && id in t.index
      ensures HasController(t, id, t.conns[q].userId) || (t.conns[q].userId, id) in t.odd
    {
      assert HasController(s, id, s.conns[q].userId) || (s.conns[q].userId, id) in s.odd;
    }
    if t.pass.Passing? {
      forall u | u in t.peers && u !in t.pass.remaining ensures Done(t, u) {
        assert Done(s, u);
      }
    }
  }

  lemma JobOnlyInv(s: Sig, step: Step)
    requires Inv(s) && Enabled(s, step)
    requires step.InitialBegin? || step.InitialCollect? || step.InitialFetch? || step.InitialGivesUp?
    ensures Inv(Next(s, step))
  {
    var p := step.p;
    assert JobGood(s, p, s.jobs[p]);
    OtherJob(s, p, Next(s, step).jobs[p]);
  }

  lemma CleanOne(senders: Senders, i: nat, index: SliceIndex, fails: bool)
    requires i < |senders|
    ensures var r := senders[i := CleanSender(senders[i], Live(senders[i], index), fails)];
            Sent(r) <= Sent(senders)
            && (forall id :: id in Sent(senders) && id in index ==> id in Sent(r))
            && Doubled(r) <= Doubled(senders)
  {
    var r := senders[i := CleanSender(senders[i], Live(senders[i], index), fails)];
    forall id | id in Sent(senders) && id in index ensures id in Sent(r) {
      var k :| 0 <= k < |senders| && senders[k] == Some(id);
      assert r[k] == Some(id);
    }
    forall id | id in Sent(r) ensures id in Sent(senders) {
      var k :| 0 <= k < |r| && r[k] == Some(id);
      assert senders[k] == Some(id);
    }
    forall id | id in Doubled(r) ensures id in Doubled(senders) {
      var k, n :| 0 <= k < n < |r| && r[k] == r[n] == Some(id);
      assert senders[k] == senders[n] == Some(id);
    }
  }

  /** Fewer dead tracks on one connection. */
  lemma FewerTracks(s: Sig, p: nat, senders: Senders)
    requires Inv(s) && p < |s.conns| && s.jobs[p].Cleaning?
    requires Sent(senders) <= Sent(s.conns[p].senders)
    requires forall id :: id in Sent(s.conns[p].senders) && id in s.index ==> id in Sent(senders)
    requires Doubled(senders) <= Doubled(s.conns[p].senders)
    ensures Inv(WithSenders(s, p, senders))
  {
    var t := WithSenders(s, p, senders);
    forall q | 0 <= q < |t.conns| ensures ConnSafe(t, q) && JobGood(t, q, t.jobs[q]) && OneOfferOut(t.conns[q]) {
      assert ConnSafe(s, q) && JobGood(s, q, s.jobs[q]) && OneOfferOut(s.conns[q]);
    }
    forall q, id | 0 <= q < |t.conns| && id in Sent(t.conns[q].senders) && id in t.index
      ensures HasController(t, id, t.conns[q].userId) || (t.conns[q].userId, id) in t.odd
    {
      assert HasController(s, id, s.conns[q].userId) || (s.conns[q].userId, id) in s.odd;
    }
    if t.pass.Passing? {
      forall u | u in t.peers && u !in t.pass.remaining ensures Done(t, u) {
        assert Done(s, u);
      }
    }
  }

  lemma AddOneExpected(s: Sig, p: nat, slots: map<TrackId, nat>, oneEncoding: bool)
    requires HasJob(s, p) && HandFull(s.jobs[p])
    ensures var t := WithAdded(s, p, slots, oneEncoding);
            t.index.Keys == s.index.Keys
            && (forall id :: id in s.index ==>
                  t.index[id].owner == s.index[id].owner && t.index[id].kind == s.index[id].kind
                  && t.index[id].target == s.index[id].target
                  && s.index[id].controllers.Keys <= t.index[id].controllers.Keys)
            && forall u :: Expected(t.size, u, t.index) == Expected(s.size, u, s.index)
  {
    var t := WithAdded(s, p, slots, oneEncoding);
    forall u ensures Expected(t.size, u, t.index) == Expected(s.size, u, s.index) {
      ExpectedFrame(s.size, u, s.index, t.index);
    }
  }

  lemma AddedSafe(s: Sig, p: nat, slots: map<TrackId, nat>, oneEncoding: bool)
    requires PeersKnown(s) && SendersSafe(s) && JobsGood(s) && OneOffer(s) && HasJob(s, p) && HandFull(s.jobs[p])
    ensures var t := WithAdded(s, p, slots, oneEncoding);
            PeersKnown(t) && SendersSafe(t) && JobsGood(t) && OneOffer(t)
  {
    var t, id := WithAdded(s, p, slots, oneEncoding), s.jobs[p].hand.value;
    AddOneExpected(s, p, slots, oneEncoding);
    PlaceFacts(s.conns[p].senders, id, slots);
    forall q | 0 <= q < |t.conns| ensures ConnSafe(t, q) && JobGood(t, q, t.jobs[q]) && OneOfferOut(t.conns[q]) {
      assert ConnSafe(s, q) && JobGood(s, q, s.jobs[q]) && OneOfferOut(s.conns[q]);
    }
  }

  lemma AddedControlled(s: Sig, p: nat, slots: map<TrackId, nat>, oneEncoding: bool)
    requires Controlled(s) && RatesGood(s) && HasJob(s, p) && HandFull(s.jobs[p])
    ensures Controlled(WithAdded(s, p, slots, oneEncoding)) && RatesGood(WithAdded(s, p, slots, oneEncoding))
  {
    var t, h := WithAdded(s, p, slots, oneEncoding), s.jobs[p].hand.value;
    AddOneExpected(s, p, slots, oneEncoding);
    PlaceFacts(s.conns[p].senders, h, slots);
    forall q, id | 0 <= q < |t.conns| && id in Sent(t.conns[q].senders) && id in t.index
      ensures HasController(t, id, t.conns[q].userId) || (t.conns[q].userId, id) in t.odd
    {
      if q != p || id in Sent(s.conns[p].senders) {
        assert HasController(s, id, s.conns[q].userId) || (s.conns[q].userId, id) in s.odd;
      }
    }
    forall id | id in t.index ensures GoodSlice(t.index[id]) {
      assert GoodSlice(s.index[id]);
    }
  }

  /** To a peer already visited, the track added is one it has been given or one that is gone. */
  lemma AddedDone(s: Sig, p: nat, slots: map<TrackId, nat>, oneEncoding: bool, u: UserId)
    requires PeersKnown(s) && HasJob(s, p) && HandFull(s.jobs[p]) && HandGood(s, p, s.jobs[p])
    requires s.pass.Passing? && u in s.peers && u !in s.pass.remaining && Done(s, u)
    ensures Done(WithAdded(s, p, slots, oneEncoding), u)
  {
    var t, id := WithAdded(s, p, slots, oneEncoding), s.jobs[p].hand.value;
    AddOneExpected(s, p, slots, oneEncoding);
    PlaceFacts(s.conns[p].senders, id, slots);
    if s.peers[u] == p {
      assert Sent(t.conns[p].senders) == Sent(s.conns[p].senders) + {id};
      if id in s.index {
        assert id in Expected(s.size, u, s.index);
      } else {
        assert u in t.pass.spoiled && id in Sent(t.conns[p].senders);
      }
    } else {
      assert t.conns[s.peers[u]] == s.conns[s.peers[u]] && (u in t.pass.spoiled <==> u in s.pass.spoiled);
    }
  }

  lemma AddedProgress(s: Sig, p: nat, slots: map<TrackId, nat>, oneEncoding: bool)
    requires PeersKnown(s) && JobsGood(s) && PassProgress(s) && HasJob(s, p) && HandFull(s.jobs[p])
    requires PeersKnown(WithAdded(s, p, slots, oneEncoding))
    ensures PassProgress(WithAdded(s, p, slots, oneEncoding))
  {
    var t := WithAdded(s, p, slots, oneEncoding);
    assert JobGood(s, p, s.jobs[p]);
    if t.pass.Passing? {
      forall u | u in t.peers && u !in t.pass.remaining ensures Done(t, u) {
        AddedDone(s, p, slots, oneEncoding, u);
      }
    }
  }

  lemma InitialInv(s: Sig, step: Step)
    requires Inv(s) && Enabled(s, step)
    requires step.InitialClean? || step.InitialAdd? || step.InitialOffer?
    ensures Inv(Next(s, step))
  {
    var p := step.p;
    match step
    case InitialClean(_, i, fails) =>
      CleanOne(s.conns[p].senders, i, s.index, fails);
      FewerTracks(s, p, Next(s, step).conns[p].senders);
    case InitialAdd(_, slots, oneEncoding) =>
      AddedSafe(s, p, slots, oneEncoding);
      AddedControlled(s, p, slots, oneEncoding);
      AddedProgress(s, p, slots, oneEncoding);
    case InitialOffer(_, offer) =>
      OfferAnswerInv(s, OfferTrigger(p, offer));
      OtherJob(Next(s, OfferTrigger(p, offer)), p, Ended);
  }

  /** Controllers and rates when the index changes and no connection does. */
  lemma OtherIndex(s: Sig, t: Sig)
    requires Controlled(s) && RatesGood(s) && SendersSafe(s) && t.odd == s.odd && |s.conns| <= |t.conns|
    requires forall p :: 0 <= p < |s.conns| ==> t.conns[p] == s.conns[p]
    requires forall p :: |s.conns| <= p < |t.conns| ==> t.conns[p].senders == []
    requires forall id :: id in t.index ==>
               if id in s.index then t.index[id] == s.index[id] else id !in s.owners && GoodSlice(t.index[id])
    ensures Controlled(t) && RatesGood(t)
  {
    forall p, id | 0 <= p < |t.conns| && id in Sent(t.conns[p].senders) && id in t.index
      ensures HasController(t, id, t.conns[p].userId) || (t.conns[p].userId, id) in t.odd
    {
      assert p < |s.conns| && ConnSafe(s, p);
      assert HasController(s, id, s.conns[p].userId) || (s.conns[p].userId, id) in s.odd;
    }
    forall id | id in t.index ensures GoodSlice(t.index[id]) {
      assert id in s.index ==> GoodSlice(s.index[id]);
    }
  }

  lemma TopologyJobs(s: Sig, t: Sig)
    requires PeersKnown(s) && SendersSafe(s) && JobsGood(s) && PeersKnown(t)
    requires t.size == s.size && t.crossed == s.crossed && |s.conns| <= |t.conns|
    requires forall id :: id in s.owners ==> id in t.owners && t.owners[id] == s.owners[id]
    requires forall id :: id in t.index ==> id in s.index || id !in s.owners
    requires forall p :: 0 <= p < |s.conns| ==> t.conns[p] == s.conns[p] && t.jobs[p] == s.jobs[p]
    requires forall p :: |s.conns| <= p < |t.conns| ==> t.conns[p].senders == [] && t.jobs[p] == NotBegun
    ensures SendersSafe(t) && JobsGood(t)
  {
    forall p | 0 <= p < |t.conns| ensures ConnSafe(t, p) && JobGood(t, p, t.jobs[p]) {
      if p < |s.conns| {
        assert ConnSafe(s, p) && JobGood(s, p, s.jobs[p]);
      }
    }
  }

  /** Tracks and peers come and go while no pass runs. */
  lemma TopologyInv(s: Sig, step: Step)
    requires Inv(s) && Enabled(s, step)
    requires step.IndexSlice? || step.RemoveSlice? || step.ConnectPeer? || step.DisconnectPeer?
    ensures Inv(Next(s, step))
  {
    var t := Next(s, step);
    assert PeersKnown(t) && OneOffer(t) && RetryAlive(t);
    OtherIndex(s, t);
    TopologyJobs(s, t);
  }

  lemma OfferAnswerInv(s: Sig, step: Step)
    requires Inv(s) && Enabled(s, step)
    requires step.OfferTrigger? || step.Answer?
    ensures Inv(Next(s, step))
  {
    var c, d := s.conns[step.p], Next(s, step).conns[step.p];
    assert d.senders == c.senders && d.userId == c.userId;
    assert OneOfferOut(c) && OneOfferOut(d);
    OtherDescription(s, step.p, d);
  }

  /** A new offer or answer on one peer connection leaves its tracks alone. */
  lemma OtherDescription(s: Sig, p: nat, d: Conn)
    requires Inv(s) && p < |s.conns| && OneOfferOut(d)
    requires d.senders == s.conns[p].senders && d.userId == s.conns[p].userId
    requires d.offered == s.conns[p].offered || d.offered == Sent(d.senders)
    ensures Inv(s.(conns := s.conns[p := d]))
  {
    var t := s.(conns := s.conns[p := d]);
    forall q | 0 <= q < |t.conns| ensures ConnSafe(t, q) && JobGood(t, q, t.jobs[q]) {
      assert ConnSafe(s, q) && JobGood(s, q, s.jobs[q]);
    }
    if t.pass.Passing? {
      forall u | u in t.peers && u !in t.pass.remaining ensures Done(t, u) {
        assert Done(s, u);
      }
    }
    forall q, id | 0 <= q < |t.conns| && id in Sent(t.conns[q].senders) && id in t.index
      ensures HasController(t, id, t.conns[q].userId) || (t.conns[q].userId, id) in t.odd
    {
      assert HasController(s, id, s.conns[q].userId) || (s.conns[q].userId, id) in s.odd;
    }
  }

  lemma PassControlInv(s: Sig, step: Step)
    requires Inv(s) && Enabled(s, step)
    requires step.PassBegin? || step.PassEnd? || step.DeleteRoom?
    ensures Inv(Next(s, step))
  {
    var t := Next(s, step);
    forall p, id | 0 <= p < |t.conns| && id in Sent(t.conns[p].senders) && id in t.index
      ensures HasController(t, id, t.conns[p].userId) || (t.conns[p].userId, id) in t.odd
    {
      assert HasController(s, id, s.conns[p].userId) || (s.conns[p].userId, id) in s.odd;
    }
    forall p | 0 <= p < |t.conns| ensures ConnSafe(t, p) && JobGood(t, p, t.jobs[p]) {
      assert ConnSafe(s, p) && JobGood(s, p, s.jobs[p]);
    }
    if t.pass.Passing? {
      forall u | u in t.peers && u !in t.pass.remaining ensures Done(t, u) {
        assert Done(s, u);
      }
    }
  }

  /** New rates or a new target on one slice. */
  lemma OtherRates(s: Sig, id: TrackId, slice: Slice)
    requires Inv(s) && id in s.index && GoodSlice(slice)
    requires slice.owner == s.index[id].owner && slice.controllers.Keys == s.index[id].controllers.Keys
    ensures Inv(s.(index := s.index[id := slice]))
  {
    var t := s.(index := s.index[id := slice]);
    forall u ensures Expected(t.size, u, t.index) == Expected(s.size, u, s.index) {
      ExpectedFrame(s.size, u, s.index, t.index);
    }
    if t.pass.Passing? {
      forall u | u in t.peers && u !in t.pass.remaining ensures Done(t, u) {
        assert Done(s, u);
      }
    }
    forall p | 0 <= p < |t.conns| ensures ConnSafe(t, p) && JobGood(t, p, t.jobs[p]) {
      assert ConnSafe(s, p) && JobGood(s, p, s.jobs[p]);
    }
    forall p, x | 0 <= p < |t.conns| && x in Sent(t.conns[p].senders) && x in t.index
      ensures HasController(t, x, t.conns[p].userId) || (t.conns[p].userId, x) in t.odd
    {
      assert HasController(s, x, s.conns[p].userId) || (s.conns[p].userId, x) in s.odd;
    }
    forall x | x in t.index ensures GoodSlice(t.index[x]) {
      assert x != id ==> GoodSlice(s.index[x]);
    }
  }

  lemma OtherController(s: Sig, id: TrackId, user: UserId, c: Controller)
    requires Inv(s) && HasController(s, id, user) && GoodController(s.index[id].kind, c)
    ensures Inv(WithController(s, id, user, c))
  {
    assert GoodSlice(s.index[id]);
    OtherRates(s, id, s.index[id].(controllers := s.index[id].controllers[user := c]));
  }

  lemma RateInv(s: Sig, step: Step)
    requires Inv(s) && Enabled(s, step)
    requires step.LossReport? || step.TargetChange? || step.EncoderTick?
    ensures Inv(Next(s, step))
  {
    var slice := s.index[step.id];
    assert GoodSlice(slice);
    if step.EncoderTick? {
      var u :| u in slice.controllers && Rate(slice.controllers[u], s.gcc) == step.rate;
      assert GoodController(slice.kind, slice.controllers[u]);
      OtherRates(s, step.id, slice.(target := if step.rate > 0 then step.rate else slice.target));
      assert s.index == s.index[step.id := slice];
    } else {
      var c := slice.controllers[step.user];
      assert GoodController(slice.kind, c);
      if step.LossReport? {
        OtherController(s, step.id, step.user, c.(loss := UpdatedRate(ConfigOf(slice.kind), c.loss, step.loss)));
      } else {
        OtherController(s, step.id, step.user, c.(cc := CapRate(ConfigOf(slice.kind), step.bitrate)));
      }
    }
  }

  /** Every step keeps the invariant. */
  lemma StepInv(s: Sig, step: Step)
    requires Inv(s) && Enabled(s, step)
    ensures Inv(Next(s, step))
  {
    match step
    case PassPeer(user, env) => PassPeerInv(s, user, env);
    case InitialBegin(_) => JobOnlyInv(s, step);
    case InitialCollect(_) => JobOnlyInv(s, step);
    case InitialFetch(_, _) => JobOnlyInv(s, step);
    case InitialGivesUp(_) => JobOnlyInv(s, step);
    case InitialClean(_, _, _) => InitialInv(s, step);
    case InitialAdd(_, _, _) => InitialInv(s, step);
    case InitialOffer(_, _) => InitialInv(s, step);
    case OfferTrigger(_, _) => OfferAnswerInv(s, step);
    case Answer(_) => OfferAnswerInv(s, step);
    case PassBegin(_) => PassControlInv(s, step);
    case PassEnd => PassControlInv(s, step);
    case DeleteRoom => PassControlInv(s, step);
    case LossReport(_, _, _) => RateInv(s, step);
    case TargetChange(_, _, _) => RateInv(s, step);
    case EncoderTick(_, _) => RateInv(s, step);
    case _ => TopologyInv(s, step);
  }

  // ---- what may always happen

  /** Reports, targets, negotiations and answers are never shut out, a retry only by a running
      pass; and a running pass can visit any peer it has left, whatever the environment
      answers, and can end when none is left. */
  lemma NothingIsShutOut(
      s: Sig, id: TrackId, user: UserId, loss: FractionLost, bitrate: int, p: nat, offer: OfferEnv, env: Env)
    requires PeersKnown(s)
    ensures HasController(s, id, user) ==>
              Enabled(s, LossReport(id, user, loss)) && Enabled(s, TargetChange(id, user, bitrate))
    ensures p < |s.conns| ==> Enabled(s, OfferTrigger(p, offer)) && Enabled(s, Answer(p))
    ensures s.pass.NoPass? && s.retries > 0 ==> Enabled(s, PassBegin(true))
    ensures s.pass.Passing? && user in s.pass.remaining && GoodEnv(env, s.index) ==> Enabled(s, PassPeer(user, env))
    ensures s.pass.Passing? && s.pass.remaining == {} ==> Enabled(s, PassEnd)
  {
  }

  // ---- whole runs

  /** `run` is a run from its first state: each state follows from the one before. */
  ghost predicate Run(states: seq<Sig>, steps: seq<Step>) {
    |states| == |steps| + 1 && Init(states[0])
    && forall k :: 0 <= k < |steps| ==> Follows(states[k], steps[k], states[k + 1])
  }

  ghost predicate Follows(s: Sig, step: Step, t: Sig) {
    Enabled(s, step)
    && t == Next(s, step)
  }

  lemma {:induction false} ReachableInv(states: seq<Sig>, steps: seq<Step>, k: nat)
    requires Run(states, steps) && k < |states|
    ensures Inv(states[k])
  {
    if k == 0 {
      InitInv(states[0]);
    } else {
      ReachableInv(states, steps, k - 1);
      assert Follows(states[k - 1], steps[k - 1], states[k]);
      StepInv(states[k - 1], steps[k - 1]);
    }
  }

  /** In every state of every run, failed passes included: no peer is sent its own track
      (unless the room is a mirror) and each has at most one outstanding offer; and a peer is
      sent a track twice only if a pass added it after the initial update had collected what
      was sent. */
  lemma SignalingSafety(states: seq<Sig>, steps: seq<Step>, k: nat, p: nat)
    requires Run(states, steps) && k < |states| && p < |states[k].conns|
    ensures var c := states[k].conns[p];
            NoneOfOwn(states[k].size, c, states[k].owners)
            && c.answers <= c.offers <= c.answers + 1
            && forall id :: id in Doubled(c.senders) ==> AddedMidway(states, steps, k, p, id)
  {
    ReachableInv(states, steps, k);
    assert ConnSafe(states[k], p);
    forall id | id in Doubled(states[k].conns[p].senders) ensures AddedMidway(states, steps, k, p, id) {
      CrossedIff(states, steps, k, p, id);
    }
  }

  // ---- tracks a pass adds in the middle of an initial update

  /** A pass, visiting a connection whose initial update is adding tracks, adds one too. */
  ghost predicate AddsMidway(s: Sig, step: Step, t: Sig, p: nat, id: TrackId) {
    step.PassPeer? && step.user in s.peers && s.peers[step.user] == p
    && HasJob(s, p) && s.jobs[p].Adding? && p < |t.conns|
    && id in Sent(t.conns[p].senders) && id !in Sent(s.conns[p].senders)
  }

  ghost predicate AddedMidway(states: seq<Sig>, steps: seq<Step>, k: nat, p: nat, id: TrackId) {
    exists n :: 0 <= n < k <= |steps| && k < |states| && AddsMidway(states[n], steps[n], states[n + 1], p, id)
  }

  lemma OthersCrossNothing(s: Sig, step: Step)
    requires Enabled(s, step) && !step.PassPeer?
    ensures Next(s, step).crossed == s.crossed
  {
  }

  lemma VisitCrosses(s: Sig, user: UserId, env: Env, u: Updated, p: nat, id: TrackId)
    requires s.pass.Passing? && user in s.peers && HasJob(s, s.peers[user])
    ensures var t := AfterVisit(s, user, env, u);
            (p, id) in t.crossed <==>
              (p, id) in s.crossed || AddsMidway(s, PassPeer(user, env), t, p, id)
  {
  }

  lemma FollowsCrosses(s: Sig, step: Step, t: Sig, p: nat, id: TrackId)
    requires Follows(s, step, t)
    ensures (p, id) in t.crossed <==> (p, id) in s.crossed || AddsMidway(s, step, t, p, id)
  {
    if step.PassPeer? {
      VisitCrosses(s, step.user, step.env, Update(s, s.peers[step.user], step.env), p, id);
    } else {
      OthersCrossNothing(s, step);
    }
  }

  /** What the history records is just that. */
  lemma {:induction false} CrossedIff(states: seq<Sig>, steps: seq<Step>, k: nat, p: nat, id: TrackId)
    requires Run(states, steps) && k < |states|
    ensures (p, id) in states[k].crossed <==> AddedMidway(states, steps, k, p, id)
  {
    if k > 0 {
      CrossedIff(states, steps, k - 1, p, id);
      FollowsCrosses(states[k - 1], steps[k - 1], states[k], p, id);
      if AddedMidway(states, steps, k - 1, p, id) {
        var n :| 0 <= n < k - 1 && AddsMidway(states[n], steps[n], states[n + 1], p, id);
        assert AddsMidway(states[n], steps[n], states[n + 1], p, id);
      }
    }
  }

  // ---- what no step loses

  /** What is still missing: pairs of a peer and a track it should be sent but is not. */
  function Missing(s: Sig): set<(UserId, TrackId)> {
    set u, id | u in s.peers && id in s.index && id in Expected(s.size, u, s.index)
      && s.peers[u] < |s.conns| && id !in Sent(s.conns[s.peers[u]].senders) :: (u, id)
  }

  /** What no step but indexing and connecting does: bring in a track or a peer, give a
      track another owner, or stop sending an indexed track. */
  ghost predicate NothingLost(s: Sig, t: Sig) {
    t.size == s.size && |t.conns| == |s.conns|
    && (forall u :: u in t.peers ==> u in s.peers && t.peers[u] == s.peers[u])
    && (forall id :: id in t.index ==> id in s.index && t.index[id].owner == s.index[id].owner)
    && (forall p, id :: 0 <= p < |s.conns| && id in Sent(s.conns[p].senders) && id in s.index ==>
          id in Sent(t.conns[p].senders))
  }

  lemma UpdateLosesNothing(s: Sig, p: nat, env: Env, u: Updated)
    requires UpdateOf(s, p, env, u)
    ensures NothingLost(s, WithUpdated(s, p, env, u))
  {
  }

  lemma VisitLosesNothing(s: Sig, user: UserId, env: Env, u: Updated)
    requires s.pass.Passing? && user in s.peers && UpdateOf(s, s.peers[user], env, u)
    ensures NothingLost(s, AfterVisit(s, user, env, u))
  {
    UpdateLosesNothing(s, s.peers[user], env, u);
  }

  lemma SameTracksLoseNothing(s: Sig, t: Sig)
    requires t.size == s.size && |t.conns| == |s.conns| && t.peers == s.peers
    requires forall p :: 0 <= p < |s.conns| ==> t.conns[p].senders == s.conns[p].senders
    requires forall id :: id in t.index ==> id in s.index && t.index[id].owner == s.index[id].owner
    ensures NothingLost(s, t)
  {
  }

  lemma OtherStepLosesNothing(s: Sig, step: Step)
    requires Enabled(s, step) && !step.IndexSlice? && !step.ConnectPeer?
    requires !step.PassPeer? && !step.InitialClean? && !step.InitialAdd?
    ensures NothingLost(s, Next(s, step))
  {
    var t := Next(s, step);
    if step.OfferTrigger? || step.Answer? || step.InitialOffer? {
      assert t.conns[step.p].senders == s.conns[step.p].senders;
    }
    if !step.DisconnectPeer? {
      SameTracksLoseNothing(s, t);
    }
  }

  lemma StepLosesNothing(s: Sig, step: Step)
    requires Inv(s) && Enabled(s, step) && !step.IndexSlice? && !step.ConnectPeer?
    ensures NothingLost(s, Next(s, step))
  {
    match step
    case PassPeer(user, env) =>
      UpdateIsUpdate(s, s.peers[user], env);
      VisitLosesNothing(s, user, env, Update(s, s.peers[user], env));
    case InitialClean(p, i, fails) => CleanOne(s.conns[p].senders, i, s.index, fails);
    case InitialAdd(p, slots, oneEncoding) =>
      AddOneExpected(s, p, slots, oneEncoding);
      PlaceFacts(s.conns[p].senders, s.jobs[p].hand.value, slots);
    case _ => OtherStepLosesNothing(s, step);
  }

  /** Only a new track or a new peer adds to what is missing: failed or not, no pass and no
      other step loses a track a peer should be sent. */
  lemma MissingNeverGrows(s: Sig, step: Step)
    requires Inv(s) && Enabled(s, step) && !step.IndexSlice? && !step.ConnectPeer?
    ensures Missing(Next(s, step)) <= Missing(s)
  {
    StepLosesNothing(s, step);
  }

  // ---- when a connection starts to send a track twice

  /** An initial update adds the track in its hand although it is sent. */
  ghost predicate AddsAgain(s: Sig, step: Step, p: nat) {
    step.InitialAdd? && step.p == p && HasJob(s, p) && HandFull(s.jobs[p])
    && s.jobs[p].hand.value in Sent(s.conns[p].senders)
  }

  lemma AddDoubles(s: Sig, step: Step)
    requires Enabled(s, step) && step.InitialAdd?
    ensures var p, id := step.p, s.jobs[step.p].hand.value;
            Doubled(Next(s, step).conns[p].senders)
            == Doubled(s.conns[p].senders) + if id in Sent(s.conns[p].senders) then {id} else {}
  {
    PlaceFacts(s.conns[step.p].senders, s.jobs[step.p].hand.value, step.slots);
  }

  lemma VisitDoublesNothing(s: Sig, user: UserId, env: Env, u: Updated, p: nat)
    requires s.pass.Passing? && user in s.peers && UpdateOf(s, s.peers[user], env, u) && p < |s.conns|
    ensures var t := AfterVisit(s, user, env, u);
            p < |t.conns| && Doubled(t.conns[p].senders) <= Doubled(s.conns[p].senders)
  {
  }

  lemma QuietDoublesNothing(s: Sig, step: Step, p: nat)
    requires Enabled(s, step) && p < |s.conns| && !step.PassPeer? && !step.InitialClean? && !step.InitialAdd?
    ensures p < |Next(s, step).conns| && Next(s, step).conns[p].senders == s.conns[p].senders
  {
  }

  lemma OthersDoubleNothing(s: Sig, step: Step, p: nat)
    requires PeersKnown(s) && SendersSafe(s) && Enabled(s, step) && p < |s.conns|
    requires !(step.InitialAdd? && step.p == p)
    ensures p < |Next(s, step).conns|
    ensures Doubled(Next(s, step).conns[p].senders) <= Doubled(s.conns[p].senders)
  {
    match step
    case PassPeer(user, env) =>
      UpdateIsUpdate(s, s.peers[user], env);
      VisitDoublesNothing(s, user, env, Update(s, s.peers[user], env), p);
    case InitialClean(q, i, fails) => CleanOne(s.conns[q].senders, i, s.index, fails);
    case InitialAdd(q, _, _) =>
    case _ => QuietDoublesNothing(s, step, p);
  }

  /** A connection that sends no track twice comes to do so in exactly one way: its initial
      update adds a track that is already sent. */
  lemma DoubleSendIff(s: Sig, step: Step, p: nat)
    requires PeersKnown(s) && SendersSafe(s) && Enabled(s, step) && p < |s.conns| && SentOnce(s.conns[p].senders)
    ensures p < |Next(s, step).conns|
    ensures !SentOnce(Next(s, step).conns[p].senders) <==> AddsAgain(s, step, p)
  {
    if step.InitialAdd? && step.p == p {
      AddDoubles(s, step);
      TwiceWhen(s.conns[p].senders, Next(s, step).conns[p].senders);
    } else {
      OthersDoubleNothing(s, step, p);
      TwiceWhen(s.conns[p].senders, Next(s, step).conns[p].senders);
    }
  }

  lemma TwiceWhen(before: Senders, after: Senders)
    requires SentOnce(before)
    ensures SentOnce(after) <==> Doubled(after) <= Doubled(before)
  {
    SentOnceIffNoneDoubled(before);
    SentOnceIffNoneDoubled(after);
  }

  ghost predicate EverTwice(states: seq<Sig>, k: nat, p: nat) {
    exists n :: 0 <= n <= k < |states| && TwiceIn(states[n], p)
  }

  ghost predicate TwiceIn(s: Sig, p: nat) {
    p < |s.conns| && !SentOnce(s.conns[p].senders)
  }

  ghost predicate EverAddsAgain(states: seq<Sig>, steps: seq<Step>, k: nat, p: nat) {
    exists n :: 0 <= n < k <= |steps| && k < |states| && AddsAgain(states[n], steps[n], p)
  }

  lemma NewConnOnce(s: Sig, step: Step, p: nat)
    requires PeersKnown(s) && Enabled(s, step) && p >= |s.conns|
    ensures !TwiceIn(Next(s, step), p) && !AddsAgain(s, step, p)
  {
  }

  lemma TwiceNext(s: Sig, step: Step, t: Sig, p: nat)
    requires Inv(s) && Follows(s, step, t) && !TwiceIn(s, p)
    ensures TwiceIn(t, p) <==> AddsAgain(s, step, p)
  {
    if p < |s.conns| {
      DoubleSendIff(s, step, p);
    } else {
      NewConnOnce(s, step, p);
    }
  }

  /** Over every run: a connection has ever sent a track twice exactly if its initial update
      has ever added a track that was already sent. */
  lemma {:induction false} EverTwiceIff(states: seq<Sig>, steps: seq<Step>, k: nat, p: nat)
    requires Run(states, steps) && k < |states|
    ensures EverTwice(states, k, p) <==> EverAddsAgain(states, steps, k, p)
  {
    if k == 0 {
    } else {
      EverTwiceIff(states, steps, k - 1, p);
      ReachableInv(states, steps, k - 1);
      var s, step, t := states[k - 1], steps[k - 1], states[k];
      assert Follows(s, step, t);
      if !TwiceIn(s, p) {
        TwiceNext(s, step, t, p);
      }
      EverNext(states, steps, k, p);
    }
  }

  /** What was ever so, up to k, was so before or is so now. */
  lemma EverNext(states: seq<Sig>, steps: seq<Step>, k: nat, p: nat)
    requires 0 < k < |states| && |states| == |steps| + 1
    ensures EverTwice(states, k, p) <==> EverTwice(states, k - 1, p) || TwiceIn(states[k], p)
    ensures EverAddsAgain(states, steps, k, p)
       <==> EverAddsAgain(states, steps, k - 1, p) || AddsAgain(states[k - 1], steps[k - 1], p)
    ensures TwiceIn(states[k - 1], p) ==> EverTwice(states, k - 1, p)
  {
  }

  /** What a pass added midway is sent as long as it is indexed. */
  ghost predicate CrossedSent(s: Sig) {
    forall p, id :: (p, id) in s.crossed ==>
      p < |s.conns| && id in s.owners && (id in s.index ==> id in Sent(s.conns[p].senders))
  }

  lemma VisitKeepsCrossed(s: Sig, user: UserId, env: Env, u: Updated)
    requires CrossedSent(s) && s.pass.Passing? && user in s.peers && UpdateOf(s, s.peers[user], env, u)
    ensures CrossedSent(AfterVisit(s, user, env, u))
  {
    var t := AfterVisit(s, user, env, u);
    forall p, id | (p, id) in t.crossed
      ensures p < |t.conns| && id in t.owners && (id in t.index ==> id in Sent(t.conns[p].senders))
    {
      VisitCrosses(s, user, env, u, p, id);
    }
  }

  lemma OthersKeepCrossed(s: Sig, step: Step)
    requires Inv(s) && CrossedSent(s) && Enabled(s, step) && !step.PassPeer?
    ensures CrossedSent(Next(s, step))
  {
    OthersCrossNothing(s, step);
    if !step.IndexSlice? && !step.ConnectPeer? {
      StepLosesNothing(s, step);
    }
  }

  lemma {:induction false} AlwaysCrossedSent(states: seq<Sig>, steps: seq<Step>, k: nat)
    requires Run(states, steps) && k < |states|
    ensures CrossedSent(states[k])
  {
    if k > 0 {
      AlwaysCrossedSent(states, steps, k - 1);
      ReachableInv(states, steps, k - 1);
      CrossedSentNext(states[k - 1], steps[k - 1], states[k]);
    }
  }

  lemma CrossedSentNext(s: Sig, step: Step, t: Sig)
    requires Inv(s) && CrossedSent(s) && Follows(s, step, t)
    ensures CrossedSent(t)
  {
    if step.PassPeer? {
      UpdateIsUpdate(s, s.peers[step.user], step.env);
      VisitKeepsCrossed(s, step.user, step.env, Update(s, s.peers[step.user], step.env));
    } else {
      OthersKeepCrossed(s, step);
    }
  }

  /** Over every run: the initial update adds an indexed track that is already sent exactly if
      a pass added it after the update had collected what was sent. */
  lemma AddsAgainIff(states: seq<Sig>, steps: seq<Step>, k: nat)
    requires Run(states, steps) && k < |steps| && steps[k].InitialAdd?
    requires var s, p := states[k], steps[k].p; HasJob(s, p) && HandFull(s.jobs[p]) && s.jobs[p].hand.value in s.index
    ensures AddsAgain(states[k], steps[k], steps[k].p)
       <==> AddedMidway(states, steps, k, steps[k].p, states[k].jobs[steps[k].p].hand.value)
  {
    var s, p := states[k], steps[k].p;
    ReachableInv(states, steps, k);
    AlwaysCrossedSent(states, steps, k);
    CrossedIff(states, steps, k, p, s.jobs[p].hand.value);
    assert JobGood(s, p, s.jobs[p]);
  }

  // ---- whole passes

  /** Senders in use on a user's connection. */
  function TracksSentTo(s: Sig, u: UserId): nat
    requires u in s.peers && s.peers[u] < |s.conns|
  {
    Count(s.conns[s.peers[u]].senders, (x: Option<TrackId>) => x.Some?)
  }

  /** A pass that returns true leaves every peer with all it should be sent, in an offer made
      after the last of these tracks was added. If no removal failed, a peer is sent nothing
      else, except exactly if its initial update, after the visit, added a track already
      gone. */
  lemma SuccessfulPass(states: seq<Sig>, steps: seq<Step>, k: nat)
    requires Run(states, steps) && k < |steps| && steps[k] == PassEnd
    ensures states[k].pass.Passing? && Inv(states[k + 1])
    ensures var t := states[k + 1];
            forall u :: u in t.peers ==>
              Complete(t, u) && (states[k].pass.clean ==> (Exact(t, u) <==> u !in states[k].pass.spoiled))
  {
    var s, t := states[k], states[k + 1];
    ReachableInv(states, steps, k);
    ReachableInv(states, steps, k + 1);
    assert Follows(s, steps[k], t);
    forall u | u in t.peers
      ensures Complete(t, u) && (s.pass.clean ==> (Exact(t, u) <==> u !in s.pass.spoiled))
    {
      assert Done(s, u);
    }
  }

  /** With n peers holding one audio and one video slice each, a peer that is sent exactly its
      tracks has 2(n - 1) senders in use, or 2n when the room is a mirror, exactly if it is
      sent none of them twice. */
  lemma ExactCount(s: Sig, u: UserId)
    requires u in s.peers && s.peers[u] < |s.conns| && Exact(s, u)
    requires TwoSlicesEach(s.peers.Keys, s.index)
    ensures TracksSentTo(s, u) == (if s.size == 1 then 2 * |s.peers| else 2 * (|s.peers| - 1))
       <==> SentOnce(s.conns[s.peers[u]].senders)
  {
    SentOnceCount(s.conns[s.peers[u]].senders);
    ExpectedCount(s.size, s.peers.Keys, u, s.index);
    assert |s.peers.Keys| == |s.peers|;
  }
  /** Visiting a peer fails the pass exactly when an AddTrack it needs fails, an offer is
      still unanswered, or a step of the new offer fails; a failed pass always leaves a
      retry behind. */
  lemma PassPeerFailsIff(s: Sig, user: UserId, env: Env)
    requires Inv(s) && Enabled(s, PassPeer(user, env))
    ensures var c := s.conns[s.peers[user]];
            var t := Next(s, PassPeer(user, env));
            (t.pass.NoPass? <==>
               !((Expected(s.size, user, s.index) - Sent(c.senders)) !! env.addFails)
               || c.pending || !env.offer.createOk || !env.offer.setLocalOk || !env.offer.sendOk)
            && (t.pass.NoPass? ==> t.retries == s.retries + 1)
  {
    UpdateSucceedsIff(s.size, s.conns[s.peers[user]], s.index, env);
  }

  // ---- the encoder

  /** Whenever a tick sets a target, it lies in the video limits, is the rate of some
      controller and exceeds the rate of none; it respects every peer connection that is
      sent the track over one encoding; under GCC no controller is still without a rate. */
  lemma EncoderTickSafe(states: seq<Sig>, steps: seq<Step>, k: nat)
    requires Run(states, steps) && k < |steps| && steps[k].EncoderTick?
    requires steps[k].rate > 0
    ensures var s, id, target := states[k], steps[k].id, steps[k].rate;
            id in s.index && id in states[k + 1].index && states[k + 1].index[id].target == target
            && InRange(VIDEO_CONFIG, target)
            && (exists u :: u in s.index[id].controllers && Rate(s.index[id].controllers[u], s.gcc) == target)
            && (forall u :: u in s.index[id].controllers ==> target <= Rate(s.index[id].controllers[u], s.gcc))
            && (forall p | 0 <= p < |s.conns| && id in Sent(s.conns[p].senders) && (s.conns[p].userId, id) !in s.odd ::
                  s.conns[p].userId in s.index[id].controllers
                  && target <= Rate(s.index[id].controllers[s.conns[p].userId], s.gcc))
            && (s.gcc ==> forall u :: u in s.index[id].controllers ==> s.index[id].controllers[u].cc != 0)
  {
    var s, id := states[k], steps[k].id;
    ReachableInv(states, steps, k);
    assert Follows(s, steps[k], states[k + 1]);
    assert GoodSlice(s.index[id]);
    forall p | 0 <= p < |s.conns| && id in Sent(s.conns[p].senders) && (s.conns[p].userId, id) !in s.odd
      ensures s.conns[p].userId in s.index[id].controllers
    {
      assert HasController(s, id, s.conns[p].userId);
    }
    forall u | u in s.index[id].controllers
      ensures s.gcc ==> s.index[id].controllers[u].cc != 0
    {
      assert GoodController(s.index[id].kind, s.index[id].controllers[u]);
    }
  }

  /** In every reachable state a slice's target is unset or within the video limits. */
  lemma TargetAlwaysInRange(states: seq<Sig>, steps: seq<Step>, k: nat, id: TrackId)
    requires Run(states, steps) && k < |states| && id in states[k].index
    ensures states[k].index[id].target == 0 || InRange(VIDEO_CONFIG, states[k].index[id].target)
  {
    ReachableInv(states, steps, k);
    assert GoodSlice(states[k].index[id]);
  }
}
