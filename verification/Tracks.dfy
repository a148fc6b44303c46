/** What one signaling update does to one peer connection: drop the tracks that are gone,
    add those that are missing, share an offer (sfu/peer_server.go, sfu/mixer_slice.go).
    What the environment answers (a failed RemoveTrack, the order in which a Go map is
    walked, a failed AddTrack ...) comes in as a parameter, so every statement holds for
    every answer. */
module Tracks {
  import opened Base
  import opened PipelineProtocol
  import opened RateControl

  /** The two rates of a sender controller. */
  datatype Controller = Controller(loss: nat, cc: nat)

  datatype Slice = Slice(owner: UserId, kind: Kind, controllers: map<UserId, Controller>, target: nat)

  type SliceIndex = map<TrackId, Slice>

  /** The senders of a peer connection; RemoveTrack empties a sender but keeps it. */
  type Senders = seq<Option<TrackId>>

  function ConfigOf(kind: Kind): StreamConfig {
    if kind == Audio then AUDIO_CONFIG else VIDEO_CONFIG
  }

  function NewController(kind: Kind): Controller {
    Controller(ConfigOf(kind).defaultBitrate, 0)
  }

  function Sent(senders: Senders): set<TrackId> {
    set i | 0 <= i < |senders| && senders[i].Some? :: senders[i].value
  }

  ghost predicate SentOnce(senders: Senders) {
    forall i, j :: 0 <= i < j < |senders| && senders[i].Some? && senders[j].Some? ==> senders[i] != senders[j]
  }

  /** The tracks that two senders send. */
  function Doubled(senders: Senders): set<TrackId> {
    set i, j | 0 <= i < j < |senders| && senders[i].Some? && senders[i] == senders[j] :: senders[i].value
  }

  lemma SentOnceIffNoneDoubled(senders: Senders)
    ensures SentOnce(senders) <==> Doubled(senders) == {}
  {
    if !SentOnce(senders) {
      var i, j :| 0 <= i < j < |senders| && senders[i].Some? && senders[j].Some? && senders[i] == senders[j];
      assert senders[i].value in Doubled(senders);
    }
  }

  /** The tracks a user should be sent: those of the others, or all when alone by design. */
  function Expected(size: nat, user: UserId, index: SliceIndex): set<TrackId> {
    set id | id in index && (size == 1 || index[id].owner != user)
  }

  // ---- the environment's answers

  datatype OfferEnv = OfferEnv(createOk: bool, setLocalOk: bool, sendOk: bool)

  datatype Env = Env(
    removeFails: set<nat>,        // senders whose RemoveTrack fails
    order: seq<TrackId>,          // order in which sliceIndex is walked
    addFails: set<TrackId>,       // tracks whose AddTrack fails
    slots: map<TrackId, nat>,     // an emptied sender AddTrack may take again
    oddEncodings: set<TrackId>,   // new senders without exactly one encoding
    offer: OfferEnv
  )

  ghost predicate GoodEnv(env: Env, index: SliceIndex) {
    (forall id :: id in env.order <==> id in index)
    && forall i, j :: 0 <= i < j < |env.order| ==> env.order[i] != env.order[j]
  }

  // ---- cleanOutTracks

  function CleanSender(sender: Option<TrackId>, live: bool, removeFails: bool): Option<TrackId> {
    if sender.Some? && !live && !removeFails then None else sender
  }

  predicate Live(sender: Option<TrackId>, index: SliceIndex) {
    sender.Some? && sender.value in index
  }

  function CleanOutTracks(senders: Senders, index: SliceIndex, removeFails: set<nat>): (r: Senders)
    ensures |r| == |senders|
  {
    seq(|senders|, i requires 0 <= i < |senders| =>
      CleanSender(senders[i], Live(senders[i], index), i in removeFails))
  }

  // ---- prepareOutTracks

  datatype Prepared = Prepared(senders: Senders, index: SliceIndex, ok: bool)

  function PlaceTrack(senders: Senders, id: TrackId, slots: map<TrackId, nat>): Senders {
    if id in slots && slots[id] < |senders| && senders[slots[id]].None?
    then senders[slots[id] := Some(id)]
    else senders + [Some(id)]
  }

  function AddSender(index: SliceIndex, id: TrackId, user: UserId, oneEncoding: bool): SliceIndex
    requires id in index
  {
    if oneEncoding
    then index[id := index[id].(controllers := index[id].controllers[user := NewController(index[id].kind)])]
    else index
  }

  function AlreadySent(senders: Senders, index: SliceIndex): set<TrackId> {
    set id | id in Sent(senders) && id in index
  }

  function PrepareOne(size: nat, user: UserId, already: set<TrackId>, st: Prepared, id: TrackId, env: Env): Prepared {
    if !st.ok || id !in st.index || id in already || (size != 1 && st.index[id].owner == user) then st
    else if id in env.addFails then st.(ok := false)
    else Prepared(PlaceTrack(st.senders, id, env.slots), AddSender(st.index, id, user, id !in env.oddEncodings), true)
  }

  /** The state after the first n tracks of the walk. */
  function PrepareUpTo(size: nat, user: UserId, senders: Senders, index: SliceIndex, env: Env, n: nat): Prepared
    requires n <= |env.order|
  {
    if n == 0 then Prepared(senders, index, true)
    else PrepareOne(size, user, AlreadySent(senders, index),
                    PrepareUpTo(size, user, senders, index, env, n - 1), env.order[n - 1], env)
  }

  function PrepareOutTracks(size: nat, user: UserId, senders: Senders, index: SliceIndex, env: Env): Prepared {
    PrepareUpTo(size, user, senders, index, env, |env.order|)
  }

  // ---- shareOffer and the whole update

  /** A peer connection. `offers` and `answers` count local descriptions set and answers
      applied; `offered` is what was being sent when the last offer was made. */
  datatype Conn = Conn(
    userId: UserId,
    senders: Senders,
    pending: bool,
    offers: nat,
    answers: nat,
    offered: set<TrackId>
  )

  function NewConn(user: UserId): Conn {
    Conn(user, [], false, 0, 0, {})
  }

  function ShareOffer(c: Conn, e: OfferEnv): (Conn, bool) {
    if c.pending || !e.createOk || !e.setLocalOk then (c, false)
    else (c.(pending := true, offers := c.offers + 1, offered := Sent(c.senders)), e.sendOk)
  }

  /** SetRemoteDescription succeeds only on a pending offer. */
  function ApplyAnswer(c: Conn): Conn {
    if c.pending then c.(pending := false, answers := c.answers + 1) else c
  }

  /** An offer that gets as far as its local description is pending from then on, whether or not
      it could be sent, and offers all that is being sent; it is one more exactly if none was
      pending. No other offer is made until an answer is applied, which clears it. */
  lemma OfferStaysPending(c: Conn, e: OfferEnv, again: OfferEnv)
    requires e.createOk && e.setLocalOk
    ensures var (d, ok) := ShareOffer(c, e);
            d.pending && d.senders == c.senders && d.answers == c.answers
            && (c.pending ==> d == c && !ok)
            && (!c.pending ==> d.offers == c.offers + 1 && d.offered == Sent(c.senders) && ok == e.sendOk)
            && ShareOffer(d, again) == (d, false)
            && !ApplyAnswer(d).pending && ApplyAnswer(d).answers == d.answers + 1
            && ApplyAnswer(ApplyAnswer(d)) == ApplyAnswer(d)
            && ShareOffer(ApplyAnswer(d), e).1 == e.sendOk
  {
  }

  datatype Updated = Updated(conn: Conn, index: SliceIndex, ok: bool)

  function UpdateTracksAndShareOffer(size: nat, c: Conn, index: SliceIndex, env: Env): Updated {
    var p := PrepareOutTracks(size, c.userId, CleanOutTracks(c.senders, index, env.removeFails), index, env);
    var c1 := c.(senders := p.senders);
    if !p.ok then Updated(c1, p.index, false)
    else var (c2, ok) := ShareOffer(c1, env.offer); Updated(c2, p.index, ok)
  }

  // ---- what cleaning does

  /** Cleaning never sends anything new; it keeps every live track, and drops a dead one
      unless its removal failed. */
  lemma CleanFacts(senders: Senders, index: SliceIndex, removeFails: set<nat>)
    ensures var r := CleanOutTracks(senders, index, removeFails);
            Sent(r) <= Sent(senders)
            && (forall id :: id in Sent(senders) && id in index ==> id in Sent(r))
            && (removeFails == {} ==> Sent(r) == AlreadySent(senders, index))
            && Doubled(r) <= Doubled(senders)
  {
    var r := CleanOutTracks(senders, index, removeFails);
    forall id | id in Doubled(r) ensures id in Doubled(senders) {
      var i, j :| 0 <= i < j < |r| && r[i] == r[j] == Some(id);
      assert senders[i] == senders[j] == Some(id);
    }
    forall id | id in Sent(senders) && id in index ensures id in Sent(r) {
      var i :| 0 <= i < |senders| && senders[i] == Some(id);
      assert r[i] == Some(id);
    }
    forall id | id in Sent(r) ensures id in Sent(senders) && (removeFails == {} ==> id in index) {
      var i :| 0 <= i < |r| && r[i] == Some(id);
      assert senders[i] == Some(id);
    }
  }

  // ---- what preparing does

  lemma PlaceFacts(senders: Senders, id: TrackId, slots: map<TrackId, nat>)
    ensures Sent(PlaceTrack(senders, id, slots)) == Sent(senders) + {id}
    ensures var reused := id in slots && slots[id] < |senders| && senders[slots[id]] == None;
            |PlaceTrack(senders, id, slots)| == if reused then |senders| else |senders| + 1
    ensures Doubled(PlaceTrack(senders, id, slots)) == Doubled(senders) + if id in Sent(senders) then {id} else {}
  {
    var r := PlaceTrack(senders, id, slots);
    var k := if |r| == |senders| then slots[id] else |senders|;
    assert r[k] == Some(id);
    forall x | x in Sent(senders) ensures x in Sent(r) {
      var i :| 0 <= i < |senders| && senders[i] == Some(x);
      assert r[i] == Some(x);
    }
    forall x | x in Sent(r) && x != id ensures x in Sent(senders) {
      var i :| 0 <= i < |r| && r[i] == Some(x);
      assert senders[i] == Some(x);
    }
    PlacedTwice(senders, k, id, r);
  }

  lemma PlacedTwice(senders: Senders, k: nat, id: TrackId, r: Senders)
    requires k < |r| && r[k] == Some(id) && |senders| <= |r|
    requires k < |senders| ==> |r| == |senders| && senders[k].None?
    requires k >= |senders| ==> k == |senders| == |r| - 1
    requires forall i :: 0 <= i < |senders| && i != k ==> r[i] == senders[i]
    ensures Doubled(r) == Doubled(senders) + if id in Sent(senders) then {id} else {}
  {
    forall x | x in Doubled(r) ensures x in Doubled(senders) || (x == id && id in Sent(senders)) {
      var i, j :| 0 <= i < j < |r| && r[i] == r[j] == Some(x);
      if i == k {
        assert senders[j] == Some(x);
      } else {
        assert senders[i] == Some(x);
      }
    }
    forall x | x in Doubled(senders) ensures x in Doubled(r) {
      var i, j :| 0 <= i < j < |senders| && senders[i] == senders[j] == Some(x);
      assert r[i] == r[j] == Some(x);
    }
    if id in Sent(senders) {
      var i :| 0 <= i < |senders| && senders[i] == Some(id);
      assert r[i] == r[k] == Some(id) && i != k;
      assert id in Doubled(r);
    }
  }

  /** Same tracks, owners, kinds and targets; controllers are only added, at their default. */
  ghost predicate Extends(before: SliceIndex, after: SliceIndex, user: UserId) {
    after.Keys == before.Keys
    && forall id :: id in before ==>
         after[id].owner == before[id].owner && after[id].kind == before[id].kind
         && after[id].target == before[id].target
         && (after[id].controllers == before[id].controllers
             || after[id].controllers == before[id].controllers[user := NewController(before[id].kind)])
  }

  /** Tracks among the first n of the walk that have to be added. */
  function Wanted(size: nat, user: UserId, senders: Senders, index: SliceIndex, env: Env, n: nat): set<TrackId>
    requires n <= |env.order|
  {
    set i | 0 <= i < n && env.order[i] in Expected(size, user, index) && env.order[i] !in Sent(senders) :: env.order[i]
  }

  /** The loop's invariant: what was wanted so far is now sent, unless an AddTrack failed,
      in which case nothing else was sent after it; every new sender got its controller. */
  ghost predicate PreparedWell(
      user: UserId, senders: Senders, index: SliceIndex, env: Env, st: Prepared, wanted: set<TrackId>)
  {
    Extends(index, st.index, user)
    && Sent(senders) <= Sent(st.senders) <= Sent(senders) + wanted
    && (st.ok ==> Sent(st.senders) == Sent(senders) + wanted)
    && (st.ok <==> wanted !! env.addFails)
    && Doubled(st.senders) <= Doubled(senders)
    && HasControllers(user, senders, env, st)
  }

  ghost predicate HasControllers(user: UserId, senders: Senders, env: Env, st: Prepared) {
    forall id :: id in Sent(st.senders) && id !in Sent(senders) && id !in env.oddEncodings ==>
      id in st.index && HasFreshController(st.index[id], user)
  }

  /** The user's controller starts at the default rate of the kind, and without a target. */
  predicate HasFreshController(slice: Slice, user: UserId) {
    user in slice.controllers
    && slice.controllers[user].loss == (if slice.kind == Audio then 64000 else 300000)
    && slice.controllers[user].cc == 0
  }

  lemma AddedHasController(
      user: UserId, senders: Senders, env: Env, st: Prepared, id: TrackId, next: Prepared)
    requires HasControllers(user, senders, env, st) && id in st.index
    requires Sent(next.senders) == Sent(st.senders) + {id}
    requires next.index == AddSender(st.index, id, user, id !in env.oddEncodings)
    ensures HasControllers(user, senders, env, next)
  {
  }

  lemma AddedExtends(index: SliceIndex, before: SliceIndex, id: TrackId, user: UserId, oneEncoding: bool)
    requires Extends(index, before, user) && id in before
    ensures Extends(index, AddSender(before, id, user, oneEncoding), user)
  {
  }

  lemma PrepareOneFails(
      user: UserId, senders: Senders, index: SliceIndex, env: Env, st: Prepared, wanted: set<TrackId>, id: TrackId)
    requires PreparedWell(user, senders, index, env, st, wanted) && id in env.addFails
    ensures PreparedWell(user, senders, index, env, st.(ok := false), wanted + {id})
  {
    assert !(wanted + {id} !! env.addFails);
  }

  lemma PrepareOneAdds(
      user: UserId, senders: Senders, index: SliceIndex, env: Env, st: Prepared, wanted: set<TrackId>, id: TrackId,
      next: Prepared)
    requires PreparedWell(user, senders, index, env, st, wanted) && st.ok && id in st.index && id !in env.addFails
    requires next == Prepared(PlaceTrack(st.senders, id, env.slots),
                              AddSender(st.index, id, user, id !in env.oddEncodings), true)
    requires id !in Sent(senders) && id !in wanted
    ensures PreparedWell(user, senders, index, env, next, wanted + {id})
  {
    PlaceFacts(st.senders, id, env.slots);
    AddedHasController(user, senders, env, st, id, next);
    AddedExtends(index, st.index, id, user, id !in env.oddEncodings);
  }

  lemma PrepareOneFacts(
      size: nat, user: UserId, senders: Senders, index: SliceIndex, env: Env,
      st: Prepared, wanted: set<TrackId>, id: TrackId)
    requires PreparedWell(user, senders, index, env, st, wanted)
    requires id in index && id !in wanted
    requires st.ok && id !in Sent(senders) && id in Expected(size, user, index)
    ensures PreparedWell(user, senders, index, env,
                         PrepareOne(size, user, AlreadySent(senders, index), st, id, env), wanted + {id})
  {
    var next := PrepareOne(size, user, AlreadySent(senders, index), st, id, env);
    if id in env.addFails {
      PrepareOneFails(user, senders, index, env, st, wanted, id);
    } else {
      PrepareOneAdds(user, senders, index, env, st, wanted, id, next);
    }
  }

  lemma WantedNext(size: nat, user: UserId, senders: Senders, index: SliceIndex, env: Env, n: nat)
    requires GoodEnv(env, index) && n < |env.order|
    ensures var id, before := env.order[n], Wanted(size, user, senders, index, env, n);
            id in index && id !in before
            && Wanted(size, user, senders, index, env, n + 1)
               == before + if id in Expected(size, user, index) && id !in Sent(senders) then {id} else {}
  {
  }

  lemma PreparedNothing(size: nat, user: UserId, senders: Senders, index: SliceIndex, env: Env)
    ensures PreparedWell(user, senders, index, env, Prepared(senders, index, true),
                         Wanted(size, user, senders, index, env, 0))
  {
  }

  lemma PrepareNext(
      size: nat, user: UserId, senders: Senders, index: SliceIndex, env: Env,
      st: Prepared, before: set<TrackId>, id: TrackId, after: set<TrackId>)
    requires PreparedWell(user, senders, index, env, st, before) && id in index && id !in before
    requires after == before + if id in Expected(size, user, index) && id !in Sent(senders) then {id} else {}
    ensures PreparedWell(user, senders, index, env,
                         PrepareOne(size, user, AlreadySent(senders, index), st, id, env), after)
  {
    if id !in Expected(size, user, index) || id in Sent(senders) {
      assert PrepareOne(size, user, AlreadySent(senders, index), st, id, env) == st;
      assert after == before;
    } else if st.ok {
      PrepareOneFacts(size, user, senders, index, env, st, before, id);
    }
  }

  lemma {:induction false} PrepareFacts(size: nat, user: UserId, senders: Senders, index: SliceIndex, env: Env, n: nat)
    requires GoodEnv(env, index) && n <= |env.order|
    ensures PreparedWell(user, senders, index, env, PrepareUpTo(size, user, senders, index, env, n),
                         Wanted(size, user, senders, index, env, n))
    decreases n
  {
    if n == 0 {
      PreparedNothing(size, user, senders, index, env);
    } else {
      PrepareFacts(size, user, senders, index, env, n - 1);
      WantedNext(size, user, senders, index, env, n - 1);
      PrepareNext(size, user, senders, index, env, PrepareUpTo(size, user, senders, index, env, n - 1),
                  Wanted(size, user, senders, index, env, n - 1), env.order[n - 1],
                  Wanted(size, user, senders, index, env, n));
    }
  }

  /** prepareOutTracks returns true exactly when no track it had to add failed; then every
      expected track is sent. In every case no further track is sent twice, and nothing
      unexpected is added. */
  lemma PrepareOutTracksFacts(size: nat, user: UserId, senders: Senders, index: SliceIndex, env: Env)
    requires GoodEnv(env, index)
    ensures var st := PrepareOutTracks(size, user, senders, index, env);
            var missing := Expected(size, user, index) - Sent(senders);
            Extends(index, st.index, user)
            && Sent(senders) <= Sent(st.senders) <= Sent(senders) + missing
            && (st.ok ==> Sent(st.senders) == Sent(senders) + missing)
            && (st.ok <==> missing !! env.addFails)
            && Doubled(st.senders) <= Doubled(senders)
            && HasControllers(user, senders, env, st)
  {
    var n := |env.order|;
    PrepareFacts(size, user, senders, index, env, n);
    forall id | id in Expected(size, user, index) - Sent(senders)
      ensures id in Wanted(size, user, senders, index, env, n)
    {
      assert id in env.order;
    }
    assert Wanted(size, user, senders, index, env, n) == Expected(size, user, index) - Sent(senders);
  }

  // ---- the whole update of one peer

  /** No track the user produced itself is sent back, unless the room is a mirror. `owners`
      knows the producer of every track ever indexed. */
  ghost predicate NoneOfOwn(size: nat, c: Conn, owners: map<TrackId, UserId>) {
    forall id :: id in Sent(c.senders) ==> id in owners && (size == 1 || owners[id] != c.userId)
  }

  ghost predicate OwnersKnown(index: SliceIndex, owners: map<TrackId, UserId>) {
    forall id :: id in index ==> id in owners && owners[id] == index[id].owner
  }

  ghost predicate OneOfferOut(c: Conn) {
    c.offers == c.answers + if c.pending then 1 else 0
  }

  /** What an update may and must do, whatever the environment answered. */
  ghost predicate UpdateEffect(
      size: nat, c: Conn, index: SliceIndex, env: Env, owners: map<TrackId, UserId>, u: Updated)
  {
    var expected := Expected(size, c.userId, index);
    u.conn.userId == c.userId
    && Extends(index, u.index, c.userId)
    && Doubled(u.conn.senders) <= Doubled(c.senders) && NoneOfOwn(size, u.conn, owners)
    && Sent(u.conn.senders) <= Sent(c.senders) + expected
    && (forall id :: id in Sent(c.senders) && id in index ==> id in Sent(u.conn.senders))
    && (forall id :: id in Sent(u.conn.senders) && id !in Sent(c.senders) && id !in env.oddEncodings ==>
          id in u.index && HasFreshController(u.index[id], c.userId))
    && (u.conn.offered == c.offered || u.conn.offered == Sent(u.conn.senders))
    && (OneOfferOut(c) ==> OneOfferOut(u.conn))
    && (u.ok ==> expected <= Sent(u.conn.senders) && u.conn.offered == Sent(u.conn.senders))
    && (u.ok && env.removeFails == {} ==> Sent(u.conn.senders) == expected)
  }

  lemma UpdateFacts(size: nat, c: Conn, index: SliceIndex, env: Env, owners: map<TrackId, UserId>)
    requires GoodEnv(env, index) && OwnersKnown(index, owners) && NoneOfOwn(size, c, owners)
    ensures UpdateEffect(size, c, index, env, owners, UpdateTracksAndShareOffer(size, c, index, env))
  {
    var cleaned := CleanOutTracks(c.senders, index, env.removeFails);
    CleanFacts(c.senders, index, env.removeFails);
    PrepareOutTracksFacts(size, c.userId, cleaned, index, env);
    OfferAfterPrepare(size, c, cleaned, index, env, owners, PrepareOutTracks(size, c.userId, cleaned, index, env));
  }

  lemma OfferAfterPrepare(
      size: nat, c: Conn, cleaned: Senders, index: SliceIndex, env: Env, owners: map<TrackId, UserId>, p: Prepared)
    requires OwnersKnown(index, owners) && NoneOfOwn(size, c, owners)
    requires Sent(cleaned) <= Sent(c.senders)
    requires forall id :: id in Sent(c.senders) && id in index ==> id in Sent(cleaned)
    requires env.removeFails == {} ==> Sent(cleaned) == AlreadySent(c.senders, index)
    requires Extends(index, p.index, c.userId) && Doubled(p.senders) <= Doubled(c.senders)
    requires var missing := Expected(size, c.userId, index) - Sent(cleaned);
             Sent(cleaned) <= Sent(p.senders) <= Sent(cleaned) + missing
             && (p.ok ==> Sent(p.senders) == Sent(cleaned) + missing)
    requires HasControllers(c.userId, cleaned, env, p)
    ensures var c1 := c.(senders := p.senders);
            UpdateEffect(size, c, index, env, owners,
              if !p.ok then Updated(c1, p.index, false)
              else Updated(ShareOffer(c1, env.offer).0, p.index, ShareOffer(c1, env.offer).1))
  {
  }

  /** An update succeeds exactly when no AddTrack it needs fails, no offer is pending, and
      the three steps of the offer succeed. */
  lemma UpdateSucceedsIff(size: nat, c: Conn, index: SliceIndex, env: Env)
    requires GoodEnv(env, index)
    ensures UpdateTracksAndShareOffer(size, c, index, env).ok
       <==> (Expected(size, c.userId, index) - Sent(c.senders)) !! env.addFails
            && !c.pending && env.offer.createOk && env.offer.setLocalOk && env.offer.sendOk
  {
    var cleaned := CleanOutTracks(c.senders, index, env.removeFails);
    CleanFacts(c.senders, index, env.removeFails);
    PrepareOutTracksFacts(size, c.userId, cleaned, index, env);
    assert Expected(size, c.userId, index) - Sent(cleaned) == Expected(size, c.userId, index) - Sent(c.senders);
  }

  /** An update gets as far as its offer exactly when no AddTrack it needs fails; it sets a local
      description exactly when, besides, none is pending and the offer can be made. */
  predicate SetsLocal(size: nat, c: Conn, index: SliceIndex, env: Env) {
    (Expected(size, c.userId, index) - Sent(c.senders)) !! env.addFails
    && env.offer.createOk && env.offer.setLocalOk
  }

  lemma UpdateOffers(size: nat, c: Conn, index: SliceIndex, env: Env)
    requires GoodEnv(env, index)
    ensures var d := UpdateTracksAndShareOffer(size, c, index, env).conn;
            (d.pending <==> c.pending || SetsLocal(size, c, index, env))
            && d.offers == c.offers + (if !c.pending && SetsLocal(size, c, index, env) then 1 else 0)
            && d.answers == c.answers
  {
    var cleaned := CleanOutTracks(c.senders, index, env.removeFails);
    CleanFacts(c.senders, index, env.removeFails);
    PrepareOutTracksFacts(size, c.userId, cleaned, index, env);
    assert Expected(size, c.userId, index) - Sent(cleaned) == Expected(size, c.userId, index) - Sent(c.senders);
  }

  /** Once an update without failed removal has prepared all tracks, another one finds
      nothing to remove or add, in whatever order it walks and wherever it could place a
      track. */
  lemma UpdateIdempotent(size: nat, c: Conn, index: SliceIndex, env: Env, again: Env, owners: map<TrackId, UserId>)
    requires GoodEnv(env, index) && GoodEnv(again, index) && OwnersKnown(index, owners)
    requires NoneOfOwn(size, c, owners)
    requires env.removeFails == {} && UpdateTracksAndShareOffer(size, c, index, env).ok
    ensures var once := UpdateTracksAndShareOffer(size, c, index, env);
            var twice := UpdateTracksAndShareOffer(size, once.conn, once.index, again);
            twice.conn.senders == once.conn.senders && twice.index == once.index
  {
    UpdateFacts(size, c, index, env, owners);
    var once := UpdateTracksAndShareOffer(size, c, index, env);
    var senders := once.conn.senders;
    var cleaned := CleanOutTracks(senders, once.index, again.removeFails);
    forall i | 0 <= i < |senders| ensures cleaned[i] == senders[i] {
      assert senders[i].Some? ==> senders[i].value in Sent(senders);
    }
    assert cleaned == senders;
    PrepareNothing(size, c.userId, senders, once.index, again, |again.order|);
  }

  lemma {:induction false} PrepareNothing(
      size: nat, user: UserId, senders: Senders, index: SliceIndex, env: Env, n: nat)
    requires n <= |env.order| && Sent(senders) == Expected(size, user, index)
    ensures PrepareUpTo(size, user, senders, index, env, n) == Prepared(senders, index, true)
    decreases n
  {
    if n > 0 {
      PrepareNothing(size, user, senders, index, env, n - 1);
    }
  }

  // ---- counting

  /** Every user of the room produces exactly one audio and one video slice. */
  ghost predicate TwoSlicesEach(users: set<UserId>, index: SliceIndex) {
    (forall id :: id in index ==> index[id].owner in users)
    && (forall u :: u in users ==> exists a, v :: OwnPair(u, a, v, index))
  }

  ghost predicate OwnPair(u: UserId, a: TrackId, v: TrackId, index: SliceIndex) {
    a in index && v in index
    && index[a].owner == u && index[a].kind == Audio && index[v].owner == u && index[v].kind == Video
    && forall id :: id in index && index[id].owner == u ==> id == a || id == v
  }

  lemma WithoutTwo(s: set<TrackId>, a: TrackId, v: TrackId)
    requires a in s && v in s && a != v
    ensures |s - {a, v}| == |s| - 2
  {
    assert s - {a, v} == s - {a} - {v};
  }

  lemma OtherPairsStay(w: UserId, x: TrackId, y: TrackId, u: UserId, a: TrackId, v: TrackId, index: SliceIndex)
    requires OwnPair(w, x, y, index) && OwnPair(u, a, v, index) && w != u
    ensures OwnPair(w, x, y, index - {a, v})
  {
  }

  lemma WithoutUser(users: set<UserId>, index: SliceIndex, u: UserId, a: TrackId, v: TrackId)
    requires TwoSlicesEach(users, index) && u in users && OwnPair(u, a, v, index)
    ensures TwoSlicesEach(users - {u}, index - {a, v})
  {
    forall w | w in users - {u} ensures exists x, y :: OwnPair(w, x, y, index - {a, v}) {
      var x, y :| OwnPair(w, x, y, index);
      OtherPairsStay(w, x, y, u, a, v, index);
    }
  }

  lemma {:induction false} TwoSlicesEachCount(users: set<UserId>, index: SliceIndex)
    requires TwoSlicesEach(users, index)
    ensures |index| == 2 * |users|
    decreases |users|
  {
    if users == {} {
      assert index.Keys == {};
    } else {
      var u :| u in users;
      var a, v :| OwnPair(u, a, v, index);
      WithoutUser(users, index, u, a, v);
      TwoSlicesEachCount(users - {u}, index - {a, v});
      WithoutTwo(index.Keys, a, v);
      assert (index - {a, v}).Keys == index.Keys - {a, v};
    }
  }

  lemma ExpectedOfOthers(size: nat, u: UserId, a: TrackId, v: TrackId, index: SliceIndex)
    requires OwnPair(u, a, v, index)
    ensures Expected(size, u, index) == if size == 1 then index.Keys else index.Keys - {a, v}
  {
  }

  lemma ExpectedCount(size: nat, users: set<UserId>, u: UserId, index: SliceIndex)
    requires TwoSlicesEach(users, index) && u in users
    ensures |Expected(size, u, index)| == if size == 1 then 2 * |users| else 2 * (|users| - 1)
  {
    var a, v :| OwnPair(u, a, v, index);
    assert |index.Keys| == 2 * |users| by { TwoSlicesEachCount(users, index); }
    ExpectedOfOthers(size, u, a, v, index);
    WithoutTwo(index.Keys, a, v);
  }

  /** Senders in use are at least as many as tracks sent, and equally many exactly when no
      track is sent twice. */
  lemma {:induction false} SentOnceCount(senders: Senders)
    ensures var used := Count(senders, (x: Option<TrackId>) => x.Some?);
            used >= |Sent(senders)| && (used == |Sent(senders)| <==> SentOnce(senders))
    decreases |senders|
  {
    if senders != [] {
      var n := |senders| - 1;
      SentOnceCount(senders[..n]);
      LastSender(senders);
      if senders[n].Some? && senders[n].value in Sent(senders[..n]) {
        assert Sent(senders) == Sent(senders[..n]);
      }
    }
  }

  lemma LastSender(senders: Senders)
    requires senders != []
    ensures var front, last := senders[..|senders| - 1], senders[|senders| - 1];
            Sent(senders) == Sent(front) + (if last.Some? then {last.value} else {})
            && (SentOnce(senders) <==> SentOnce(front) && (last.Some? ==> last.value !in Sent(front)))
  {
    var n := |senders| - 1;
    var front, last := senders[..n], senders[n];
    forall id | id in Sent(senders) && last != Some(id) ensures id in Sent(front) {
      var i :| 0 <= i < |senders| && senders[i] == Some(id);
      assert front[i] == Some(id);
    }
    forall id | id in Sent(front) ensures id in Sent(senders) {
      var i :| 0 <= i < |front| && front[i] == Some(id);
      assert senders[i] == Some(id);
    }
    if last.Some? {
      assert last.value in Sent(senders);
    }
    if SentOnce(senders) {
      forall i, j | 0 <= i < j < n && front[i].Some? && front[j].Some? ensures front[i] != front[j] {
        assert senders[i] != senders[j];
      }
    }
    if SentOnce(front) && (last.Some? ==> last.value !in Sent(front)) {
      forall i, j | 0 <= i < j < |senders| && senders[i].Some? && senders[j].Some? ensures senders[i] != senders[j] {
        assert front[i] == senders[i] && senders[i].value in Sent(front);
        assert j < n ==> front[j] == senders[j];
      }
    }
  }
}
