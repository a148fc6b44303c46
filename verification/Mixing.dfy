/** Mixer slices, the mixer that indexes them and the peer servers it updates, as objects
    whose fields the methods change in place; each method is proved equal to its function in
    Tracks (sfu/mixer_slice.go, sfu/mixer.go, sfu/peer_server.go). */
module Mixing {
  import opened Base
  import opened PipelineProtocol
  import opened RateControl
  import I = Interactions
  import P = Passes
  import R = RoomSpec
  import S = SignalingSystem
  import T = Tracks

  method MinInt(v: seq<int>) returns (min: int)
    ensures v == [] ==> min == 0
    ensures v != [] ==> min in v
    ensures forall k :: 0 <= k < |v| ==> min <= v[k]
  {
    min := 0;
    if |v| > 0 {
      min := v[0];
    }
    var i := 1;
    while i < |v|
      invariant 1 <= i && (v != [] ==> i <= |v|)
      invariant if v == [] then min == 0 else min in v
      invariant forall k :: 0 <= k < i && k < |v| ==> min <= v[k]
    {
      if v[i] < min {
        min := v[i];
      }
      i := i + 1;
    }
  }

  class MixerSlice {
    const id: TrackId
    const fromUserId: UserId
    const kind: Kind
    var senderControllerIndex: map<UserId, SenderController>
    var targetBitrate: nat
    ghost var controllers: map<UserId, T.Controller>   // the rates of the controllers

    ghost predicate Valid()
      reads this, senderControllerIndex.Values
    {
      controllers.Keys == senderControllerIndex.Keys
      && forall u :: u in senderControllerIndex ==> ControlledBy(u, senderControllerIndex[u], controllers[u])
    }

    ghost predicate ControlledBy(user: UserId, sc: SenderController, c: T.Controller)
      reads sc
    {
      sc.Valid() && sc.streamConfig == T.ConfigOf(kind) && sc.trackId == id && sc.toUserId == user
      && c == T.Controller(sc.lossOptimalBitrate, sc.ccOptimalBitrate)
    }

    ghost function Abs(): T.Slice
      reads this
    {
      T.Slice(fromUserId, kind, controllers, targetBitrate)
    }

    ghost predicate Is(trackId: TrackId, slice: T.Slice)
      reads this, senderControllerIndex.Values
    {
      id == trackId && Valid() && Abs() == slice
    }

    constructor (id: TrackId, fromUserId: UserId, kind: Kind)
      ensures Valid() && this.id == id && Abs() == T.Slice(fromUserId, kind, map[], 0)
    {
      this.id, this.fromUserId, this.kind := id, fromUserId, kind;
      senderControllerIndex, targetBitrate, controllers := map[], 0, map[];
    }

    /** A sender without exactly one encoding gets no controller. */
    method AddSender(toUserId: UserId, encodings: seq<nat>)
      requires Valid()
      modifies this`senderControllerIndex, this`controllers
      ensures Valid()
      ensures Abs() == if |encodings| == 1
                       then old(Abs()).(controllers := old(Abs()).controllers[toUserId := T.NewController(kind)])
                       else old(Abs())
      ensures fresh(senderControllerIndex.Values - old(senderControllerIndex.Values))
    {
      if |encodings| == 1 {
        var sc := new SenderController(T.ConfigOf(kind), id, toUserId, encodings[0]);
        senderControllerIndex := senderControllerIndex[toUserId := sc];
        controllers := controllers[toUserId := T.NewController(kind)];
      }
    }

    /** A receiver report on one of the slice's senders changes that sender's rate alone. */
    method ReportTo(toUserId: UserId, blocks: seq<Reception>)
      requires Valid() && toUserId in senderControllerIndex
      modifies this`controllers, senderControllerIndex[toUserId]
      ensures Valid()
      ensures var c := old(Abs()).controllers[toUserId];
              var losses := LossesOf(senderControllerIndex[toUserId].ssrc, blocks);
              Abs() == old(Abs()).(controllers := old(Abs()).controllers[toUserId :=
                c.(loss := AfterReports(T.ConfigOf(kind), c.loss, losses))])
    {
      var sc := senderControllerIndex[toUserId];
      sc.ReceiverReport(blocks);
      controllers := controllers[toUserId := T.Controller(sc.lossOptimalBitrate, sc.ccOptimalBitrate)];
    }

    /** The least rate of all controllers of a video slice; 0 without controllers or for
        audio. */
    method NewPotentialRate(gcc: bool) returns (rate: int)
      requires Valid()
      ensures rate >= 0
      ensures if kind == Video && senderControllerIndex.Keys != {} then S.IsMinRate(rate, Abs().controllers, gcc)
              else rate == 0
      ensures kind == Video ==> forall u :: u in senderControllerIndex ==>
                rate <= if gcc then senderControllerIndex[u].ccOptimalBitrate
                        else senderControllerIndex[u].lossOptimalBitrate
    {
      rate := 0;
      if |senderControllerIndex| > 0 {
        var rates := CollectRates(gcc);
        rate := MinInt(rates);
        if kind == Video {
          assert senderControllerIndex.Keys != {};
          LeastRate(rates, rate, Abs().controllers, gcc);
        }
      }
    }

    /** One tick of the encoder loop: a positive rate becomes the target. */
    method EncoderTick(gcc: bool) returns (rate: int)
      requires Valid()
      modifies this`targetBitrate
      ensures Valid() && rate >= 0
      ensures if kind == Video && senderControllerIndex.Keys != {}
              then S.IsMinRate(rate, old(Abs()).controllers, gcc) else rate == 0
      ensures Abs() == if rate > 0 then old(Abs()).(target := rate) else old(Abs())
    {
      rate := NewPotentialRate(gcc);
      if rate > 0 {
        targetBitrate := rate;
      }
    }

    /** The map is walked in any order. */
    method CollectRates(gcc: bool) returns (rates: seq<int>)
      requires Valid()
      ensures if kind == Audio then rates == [] else RatesOf(rates, Abs().controllers, Abs().controllers.Keys, gcc)
    {
      rates := [];
      var left := senderControllerIndex.Keys;
      while left != {}
        invariant left <= senderControllerIndex.Keys
        invariant if kind == Audio then rates == [] else RatesOf(rates, controllers, controllers.Keys - left, gcc)
        decreases left
      {
        var u :| u in left;
        if kind == Video {
          var rate := senderControllerIndex[u].OptimalRate(gcc);
          RatesOfOneMore(rates, controllers, controllers.Keys - left, gcc, u);
          rates := rates + [rate];
        }
        left := left - {u};
        assert controllers.Keys - left == controllers.Keys - (left + {u}) + {u};
      }
      assert controllers.Keys - left == controllers.Keys;
    }
  }

  /** Exactly the rates of the controllers of some users. */
  ghost predicate RatesOf(rates: seq<int>, controllers: map<UserId, T.Controller>, users: set<UserId>, gcc: bool) {
    users <= controllers.Keys
    && (forall u :: u in users ==> S.Rate(controllers[u], gcc) in rates)
    && forall k :: 0 <= k < |rates| ==> exists u :: u in users && S.Rate(controllers[u], gcc) == rates[k]
  }

  lemma RatesOfOneMore(
      rates: seq<int>, controllers: map<UserId, T.Controller>, users: set<UserId>, gcc: bool, user: UserId)
    requires RatesOf(rates, controllers, users, gcc) && user in controllers
    ensures RatesOf(rates + [S.Rate(controllers[user], gcc)], controllers, users + {user}, gcc)
  {
    var more := rates + [S.Rate(controllers[user], gcc)];
    assert more[|rates|] == S.Rate(controllers[user], gcc);
    forall k | 0 <= k < |more| ensures exists u :: u in users + {user} && S.Rate(controllers[u], gcc) == more[k] {
      if k < |rates| {
        assert rates[k] == more[k];
      }
    }
  }

  lemma LeastRate(rates: seq<int>, rate: int, controllers: map<UserId, T.Controller>, gcc: bool)
    requires RatesOf(rates, controllers, controllers.Keys, gcc) && controllers.Keys != {}
    requires rates != [] ==> rate in rates
    requires forall k :: 0 <= k < |rates| ==> rate <= rates[k]
    ensures rate >= 0 && S.IsMinRate(rate, controllers, gcc)
  {
    var w :| w in controllers;
    assert S.Rate(controllers[w], gcc) in rates;
    var k :| 0 <= k < |rates| && rates[k] == rate;
    var u :| u in controllers.Keys && S.Rate(controllers[u], gcc) == rates[k];
    assert S.Rate(controllers[u], gcc) == rate;
  }

  ghost function Conns(peers: map<UserId, PeerServer>): map<UserId, T.Conn>
    reads peers.Values
  {
    map u | u in peers :: peers[u].Abs()
  }

  /** `contents` is what the index holds, as a value; `repr` are the slices and controllers
      it reaches. */
  class Mixer {
    var sliceIndex: map<TrackId, MixerSlice>
    ghost var contents: T.SliceIndex
    ghost var repr: set<object>

    ghost predicate Valid()
      reads this, repr
    {
      this !in repr && contents.Keys == sliceIndex.Keys
      && forall id :: id in sliceIndex ==> Holds(id, sliceIndex[id])
    }

    ghost predicate Holds(id: TrackId, ms: MixerSlice)
      reads this, repr
    {
      ms in repr && ms.senderControllerIndex.Values <= repr && id in contents && ms.Is(id, contents[id])
    }

    constructor ()
      ensures Valid() && contents == map[] && fresh(repr)
    {
      sliceIndex, contents, repr := map[], map[], {};
    }

    method IndexMixerSlice(ms: MixerSlice)
      requires Valid() && ms.Valid()
      modifies this
      ensures Valid() && contents == old(contents)[ms.id := ms.Abs()]
      ensures repr == old(repr) + {ms} + ms.senderControllerIndex.Values
    {
      ghost var slice := ms.Abs();
      assert ms.Is(ms.id, slice);
      sliceIndex := sliceIndex[ms.id := ms];
      contents := contents[ms.id := slice];
      repr := repr + {ms} + ms.senderControllerIndex.Values;
      forall x | x in sliceIndex && x != ms.id ensures Holds(x, sliceIndex[x]) {
        assert old(Holds(x, sliceIndex[x]));
      }
    }

    method RemoveMixerSlice(ms: MixerSlice)
      requires Valid()
      modifies this
      ensures Valid() && contents == old(contents) - {ms.id} && repr == old(repr)
    {
      sliceIndex := sliceIndex - {ms.id};
      contents := contents - {ms.id};
    }

    method FromUserId(id: TrackId) returns (userId: UserId)
      requires Valid() && id in sliceIndex
      ensures userId == contents[id].owner
    {
      userId := sliceIndex[id].fromUserId;
    }

    /** The peer servers of a room, under their users; the walk meets each once. */
    ghost predicate ValidPeers(peers: map<UserId, PeerServer>)
      reads this
    {
      forall u :: u in peers ==> peers[u].userId == u && peers[u] !in repr
    }

    /** The loop over the peers before its n-th turn, having begun in `start`: what is still
        to do leads where the whole loop would have led. */
    ghost predicate PassAt(
        peers: map<UserId, PeerServer>, size: nat, order: seq<UserId>, envs: map<UserId, T.Env>,
        start: P.Visited, n: nat, ok: bool)
      reads this, repr, peers.Values
    {
      Valid() && ValidPeers(peers) && n <= |order|
      && contents.Keys == start.index.Keys && start.conns.Keys == peers.Keys
      && (forall k :: 0 <= k < |order| ==> order[k] in peers && order[k] in envs)
      && P.VisitFrom(size, P.Visited(Conns(peers), contents, ok), order, envs, n)
         == P.VisitFrom(size, start, order, envs, 0)
    }

    /** The loop over all peers stops at the first update that fails. */
    method UpdateSignaling(peers: map<UserId, PeerServer>, size: nat, order: seq<UserId>, envs: map<UserId, T.Env>)
      returns (ok: bool)
      requires Valid() && ValidPeers(peers) && P.Walk(order, envs, peers.Keys, contents)
      modifies this`contents, this`repr, repr, peers.Values
      ensures PassAt(peers, size, order, envs, old(P.Visited(Conns(peers), contents, true)), |order|, ok)
      ensures fresh(repr - old(repr))
    {
      ghost var start := P.Visited(Conns(peers), contents, true);
      ok := true;
      var n := 0;
      while n < |order| && ok
        invariant PassAt(peers, size, order, envs, start, n, ok)
        invariant forall o :: o in repr ==> o in old(repr) || fresh(o)
      {
        ok := VisitPeer(peers, size, order, envs, start, n);
        n := n + 1;
      }
      SkipRest(peers, size, order, envs, start, n, ok);
    }

    /** After a failure, or at the end, nothing more happens. */
    lemma SkipRest(
        peers: map<UserId, PeerServer>, size: nat, order: seq<UserId>, envs: map<UserId, T.Env>,
        start: P.Visited, n: nat, ok: bool)
      requires PassAt(peers, size, order, envs, start, n, ok) && (ok ==> n == |order|)
      ensures PassAt(peers, size, order, envs, start, |order|, ok)
    {
      if !ok {
        P.FailedPassStops(size, P.Visited(Conns(peers), contents, ok), order, envs, n);
      }
    }

    /** managedSignalingForEveryone: a pass for a room not deleted, and another one later
        exactly if it failed. */
    method ManagedSignaling(
        deleted: bool, peers: map<UserId, PeerServer>, size: nat, order: seq<UserId>, envs: map<UserId, T.Env>)
      returns (retry: bool)
      requires Valid() && ValidPeers(peers) && P.Walk(order, envs, peers.Keys, contents)
      modifies this`contents, this`repr, repr, peers.Values
      ensures Valid() && ValidPeers(peers) && fresh(repr - old(repr))
      ensures deleted ==> !retry && Conns(peers) == old(Conns(peers)) && contents == old(contents)
      ensures !deleted ==>
                P.Visited(Conns(peers), contents, !retry)
                == P.VisitFrom(size, old(P.Visited(Conns(peers), contents, true)), order, envs, 0)
    {
      retry := false;
      if !deleted {
        var ok := UpdateSignaling(peers, size, order, envs);
        retry := !ok;
      }
    }

    method VisitPeer(
        peers: map<UserId, PeerServer>, size: nat, order: seq<UserId>, envs: map<UserId, T.Env>,
        ghost start: P.Visited, n: nat)
      returns (ok: bool)
      requires PassAt(peers, size, order, envs, start, n, true) && n < |order|
      requires P.Walk(order, envs, peers.Keys, start.index)
      modifies this`contents, this`repr, repr, peers.Values
      ensures PassAt(peers, size, order, envs, start, n + 1, ok)
      ensures forall o :: o in repr ==> o in old(repr) || fresh(o)
    {
      P.WalkFrame(order, envs, peers.Keys, start.index, contents);
      ok := VisitOnePeer(peers, size, order[n], envs[order[n]]);
    }

    method VisitOnePeer(peers: map<UserId, PeerServer>, size: nat, u: UserId, env: T.Env) returns (ok: bool)
      requires Valid() && ValidPeers(peers) && u in peers && T.GoodEnv(env, contents)
      modifies this`contents, this`repr, repr, peers[u]
      ensures Valid() && ValidPeers(peers) && fresh(repr - old(repr)) && contents.Keys == old(contents).Keys
      ensures P.Visited(Conns(peers), contents, ok)
           == P.VisitOne(size, old(P.Visited(Conns(peers), contents, true)), u, env)
    {
      ok := peers[u].UpdateTracksAndShareOffer(this, size, env);
      assert Conns(peers) == old(Conns(peers))[u := peers[u].Abs()];
    }

    /** A new sender of one indexed track changes no other track. */
    method AddSender(id: TrackId, toUserId: UserId, encodings: seq<nat>)
      requires Valid() && id in sliceIndex
      modifies this`contents, this`repr, {sliceIndex[id]}`senderControllerIndex, {sliceIndex[id]}`controllers
      ensures Valid() && fresh(repr - old(repr))
      ensures contents == T.AddSender(old(contents), id, toUserId, |encodings| == 1)
    {
      sliceIndex[id].AddSender(toUserId, encodings);
      forall x | x in sliceIndex && x != id ensures Holds(x, sliceIndex[x]) {
        assert old(Holds(x, sliceIndex[x])) && sliceIndex[x].id != id;
      }
      TakeOver(id);
    }

    /** Bookkeeping after a change of one slice. */
    ghost method TakeOver(id: TrackId)
      requires id in sliceIndex && sliceIndex[id] in repr && sliceIndex[id].Valid() && sliceIndex[id].id == id
      requires this !in repr && contents.Keys == sliceIndex.Keys
      requires forall x :: x in sliceIndex && x != id ==> Holds(x, sliceIndex[x])
      modifies this`contents, this`repr
      ensures Valid()
      ensures contents == old(contents)[id := sliceIndex[id].Abs()]
      ensures repr == old(repr) + sliceIndex[id].senderControllerIndex.Values
    {
      contents := contents[id := sliceIndex[id].Abs()];
      repr := repr + sliceIndex[id].senderControllerIndex.Values;
      forall x | x in sliceIndex && x != id ensures Holds(x, sliceIndex[x]) {
        assert old(Holds(x, sliceIndex[x]));
      }
    }
  }

  lemma {:induction false} FailedWalkStops(
      size: nat, user: UserId, senders: T.Senders, index: T.SliceIndex, env: T.Env, n: nat, m: nat)
    requires n <= m <= |env.order| && !T.PrepareUpTo(size, user, senders, index, env, n).ok
    ensures T.PrepareUpTo(size, user, senders, index, env, m) == T.PrepareUpTo(size, user, senders, index, env, n)
    decreases m
  {
    if n < m {
      FailedWalkStops(size, user, senders, index, env, n, m - 1);
    }
  }

  lemma AlreadySentSnoc(senders: T.Senders, index: T.SliceIndex, i: nat)
    requires i < |senders|
    ensures T.AlreadySent(senders[..i + 1], index)
         == T.AlreadySent(senders[..i], index) + if T.Live(senders[i], index) then {senders[i].value} else {}
  {
    var front, more := senders[..i], senders[..i + 1];
    assert more[i] == senders[i];
    forall id | id in T.Sent(front) ensures id in T.Sent(more) {
      var k :| 0 <= k < |front| && front[k] == Some(id);
      assert more[k] == Some(id);
    }
    forall id | id in T.Sent(more) && senders[i] != Some(id) ensures id in T.Sent(front) {
      var k :| 0 <= k < |more| && more[k] == Some(id);
      assert front[k] == Some(id);
    }
  }

  /** A peer server with the part of its peer connection that signaling uses. */
  class PeerServer {
    const userId: UserId
    var senders: T.Senders
    var pendingLocalDescription: bool
    var closed: bool
    var doneCh: nat
    ghost var offers: nat
    ghost var answers: nat
    ghost var offered: set<TrackId>

    ghost function Abs(): T.Conn
      reads this
    {
      T.Conn(userId, senders, pendingLocalDescription, offers, answers, offered)
    }

    constructor (userId: UserId)
      ensures Abs() == T.NewConn(userId) && !closed && doneCh == 0
    {
      this.userId := userId;
      closed, doneCh := false, 0;
      senders, pendingLocalDescription := [], false;
      offers, answers, offered := 0, 0, {};
    }

    method CleanOutTracks(mixer: Mixer, removeFails: set<nat>)
      requires mixer.Valid()
      modifies this`senders
      ensures senders == T.CleanOutTracks(old(senders), mixer.contents, removeFails)
    {
      ghost var index := mixer.contents;
      var i := 0;
      while i < |senders|
        invariant 0 <= i <= |senders| == |old(senders)|
        invariant forall k :: 0 <= k < i ==>
                    senders[k] == T.CleanSender(old(senders)[k], T.Live(old(senders)[k], index), k in removeFails)
        invariant senders[i..] == old(senders)[i..]
      {
        assert senders[i] == old(senders)[i..][0] == old(senders)[i];
        if senders[i].Some? && senders[i].value !in mixer.sliceIndex && i !in removeFails {
          senders := senders[i := None];
        }
        i := i + 1;
      }
    }

    method AlreadySentIndex(mixer: Mixer) returns (already: set<TrackId>)
      requires mixer.Valid()
      ensures already == T.AlreadySent(senders, mixer.contents)
    {
      already := {};
      var i := 0;
      while i < |senders|
        invariant 0 <= i <= |senders|
        invariant already == T.AlreadySent(senders[..i], mixer.contents)
      {
        AlreadySentSnoc(senders, mixer.contents, i);
        if senders[i].Some? && senders[i].value in mixer.sliceIndex {
          already := already + {senders[i].value};
        }
        i := i + 1;
      }
      assert senders[..i] == senders;
    }

    /** One turn of the loop over the mixer's tracks. */
    method PrepareTrack(mixer: Mixer, size: nat, already: set<TrackId>, id: TrackId, env: T.Env)
      returns (ok: bool)
      requires mixer.Valid() && this !in mixer.repr && id in mixer.sliceIndex
      modifies this`senders, mixer`contents, mixer`repr, mixer.repr
      ensures mixer.Valid() && this !in mixer.repr && fresh(mixer.repr - old(mixer.repr))
      ensures T.Prepared(senders, mixer.contents, ok)
           == T.PrepareOne(size, userId, already, old(T.Prepared(senders, mixer.contents, true)), id, env)
    {
      if id in already {
        // do not send twice
        return true;
      }
      var fromUserId := mixer.FromUserId(id);
      if size != 1 && fromUserId == userId {
        // do not send own tracks, except to the only user of a mirror
        return true;
      }
      if id in env.addFails {
        return false;
      }
      senders := T.PlaceTrack(senders, id, env.slots);
      var ssrc: nat := *;
      mixer.AddSender(id, userId, if id in env.oddEncodings then [] else [ssrc]);
      return true;
    }

    method PrepareOutTracks(mixer: Mixer, size: nat, env: T.Env) returns (ok: bool)
      requires mixer.Valid() && this !in mixer.repr && T.GoodEnv(env, mixer.contents)
      modifies this`senders, mixer`contents, mixer`repr, mixer.repr
      ensures mixer.Valid() && this !in mixer.repr && fresh(mixer.repr - old(mixer.repr))
      ensures T.Prepared(senders, mixer.contents, ok)
           == T.PrepareOutTracks(size, userId, old(senders), old(mixer.contents), env)
    {
      var already := AlreadySentIndex(mixer);
      ghost var start, index := senders, mixer.contents;
      var n := 0;
      ok := true;
      while n < |env.order| && ok
        invariant 0 <= n <= |env.order|
        invariant mixer.Valid() && this !in mixer.repr && fresh(mixer.repr - old(mixer.repr))
        invariant mixer.sliceIndex.Keys == index.Keys
        invariant T.Prepared(senders, mixer.contents, ok) == T.PrepareUpTo(size, userId, start, index, env, n)
      {
        assert env.order[n] in index;
        ok := PrepareTrack(mixer, size, already, env.order[n], env);
        n := n + 1;
      }
      if !ok {
        FailedWalkStops(size, userId, start, index, env, n, |env.order|);
      }
    }

    method ShareOffer(e: T.OfferEnv) returns (ok: bool)
      modifies this
      ensures (Abs(), ok) == T.ShareOffer(old(Abs()), e)
      ensures ok <==> !old(pendingLocalDescription) && e.createOk && e.setLocalOk && e.sendOk
      ensures pendingLocalDescription <==> old(pendingLocalDescription) || (e.createOk && e.setLocalOk)
    {
      if pendingLocalDescription {
        return false;
      }
      if !e.createOk {
        return false;
      }
      if !e.setLocalOk {
        return false;
      }
      pendingLocalDescription := true;
      offers, offered := offers + 1, T.Sent(senders);
      return e.sendOk;
    }

    /** SetRemoteDescription, which fails without a pending offer. */
    method SetRemoteDescription() returns (ok: bool)
      modifies this
      ensures Abs() == T.ApplyAnswer(old(Abs()))
      ensures (ok <==> old(pendingLocalDescription)) && !pendingLocalDescription
    {
      ok := pendingLocalDescription;
      if ok {
        pendingLocalDescription := false;
        answers := answers + 1;
      }
    }

    method UpdateTracksAndShareOffer(mixer: Mixer, size: nat, env: T.Env) returns (ok: bool)
      requires mixer.Valid() && this !in mixer.repr && T.GoodEnv(env, mixer.contents)
      modifies this, mixer`contents, mixer`repr, mixer.repr
      ensures mixer.Valid() && this !in mixer.repr && fresh(mixer.repr - old(mixer.repr))
      ensures T.Updated(Abs(), mixer.contents, ok)
           == T.UpdateTracksAndShareOffer(size, old(Abs()), old(mixer.contents), env)
    {
      ghost var before, index := Abs(), mixer.contents;
      CleanOutTracks(mixer, env.removeFails);
      ok := PrepareOutTracks(mixer, size, env);
      assert T.Prepared(senders, mixer.contents, ok)
          == T.PrepareOutTracks(size, userId, T.CleanOutTracks(before.senders, index, env.removeFails), index, env);
      assert Abs() == before.(senders := senders);
      if ok {
        ok := ShareOffer(env.offer);
      }
    }

    /** Closing again closes nothing a second time, but disconnects the user again. */
    method Close(i: I.Interaction, store: I.InteractionStore) returns (signaling: bool)
      requires i in store.rooms && store.Valid()
      modifies this`closed, this`doneCh, i, store`index
      ensures closed && doneCh == if old(closed) then old(doneCh) else old(doneCh) + 1
      ensures i.Abs() == R.DisconnectUser(old(i.Abs()), userId) && store.Valid()
      ensures signaling <==> old(i.deleted) && R.IsConnected(old(i.Abs()), userId)
    {
      if !closed {
        closed := true;
        doneCh := doneCh + 1;
      }
      signaling := i.DisconnectPeer(userId, store);
    }
  }
}
