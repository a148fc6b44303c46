/** The loop of updateSignaling over all peers of a room (sfu/mixer.go), as one computation,
    and its agreement with the peer-by-peer steps of SignalingSystem. */
module Passes {
  import opened Base
  import opened SignalingSystem
  import opened Tracks

  /** Connections and index so far; `ok` until a peer's update fails. */
  datatype Visited = Visited(conns: map<UserId, Conn>, index: SliceIndex, ok: bool)

  /** After a failure the remaining peers are not visited. */
  function VisitOne(size: nat, v: Visited, u: UserId, env: Env): Visited
    requires u in v.conns
  {
    if !v.ok then v
    else
      var r := UpdateTracksAndShareOffer(size, v.conns[u], v.index, env);
      Visited(v.conns[u := r.conn], r.index, r.ok)
  }

  ghost predicate Walk(order: seq<UserId>, envs: map<UserId, Env>, users: set<UserId>, index: SliceIndex) {
    (forall k :: 0 <= k < |order| ==> order[k] in users)
    && (forall u :: u in users ==> u in order && u in envs && GoodEnv(envs[u], index))
    && forall j, k :: 0 <= j < k < |order| ==> order[j] != order[k]
  }

  lemma WalkFrame(
      order: seq<UserId>, envs: map<UserId, Env>, users: set<UserId>, before: SliceIndex, after: SliceIndex)
    requires Walk(order, envs, users, before) && after.Keys == before.Keys
    ensures Walk(order, envs, users, after)
  {
  }

  /** The loop from its n-th turn on, the peers being walked in the given order. */
  function VisitFrom(size: nat, v: Visited, order: seq<UserId>, envs: map<UserId, Env>, n: nat): (r: Visited)
    requires n <= |order|
    requires forall k :: 0 <= k < |order| ==> order[k] in v.conns && order[k] in envs
    ensures r.conns.Keys == v.conns.Keys
    decreases |order| - n
  {
    if n == |order| then v
    else VisitFrom(size, VisitOne(size, v, order[n], envs[order[n]]), order, envs, n + 1)
  }

  lemma {:induction false} FailedPassStops(size: nat, v: Visited, order: seq<UserId>, envs: map<UserId, Env>, n: nat)
    requires n <= |order| && !v.ok
    requires forall k :: 0 <= k < |order| ==> order[k] in v.conns && order[k] in envs
    ensures VisitFrom(size, v, order, envs, n) == v
    decreases |order| - n
  {
    if n < |order| {
      FailedPassStops(size, v, order, envs, n + 1);
    }
  }

  /** A signaling state during a pass as the loop sees it. */
  ghost predicate Sees(v: Visited, s: Sig) {
    PeersKnown(s) && v.conns.Keys == s.peers.Keys && v.index == s.index && v.ok == s.pass.Passing?
    && forall u :: u in s.peers ==> v.conns[u] == s.conns[s.peers[u]]
  }

  /** The same visits as steps of the system; after a failure no visit is enabled. */
  ghost function StepFrom(s: Sig, order: seq<UserId>, envs: map<UserId, Env>, n: nat): Sig
    requires n <= |order|
    requires forall k :: 0 <= k < |order| ==> order[k] in envs
    decreases |order| - n
  {
    if n == |order| then s else StepFrom(StepOne(s, order[n], envs[order[n]]), order, envs, n + 1)
  }

  ghost function StepOne(s: Sig, u: UserId, env: Env): Sig {
    if Enabled(s, PassPeer(u, env)) then Next(s, PassPeer(u, env)) else s
  }

  /** What a pass leaves alone. */
  ghost predicate SameRoom(s: Sig, t: Sig) {
    t.size == s.size && t.peers == s.peers && t.index.Keys == s.index.Keys
    && (forall id :: id in s.index ==> t.index[id].owner == s.index[id].owner)
    && |t.conns| == |s.conns|
    && forall p :: 0 <= p < |s.conns| ==> Doubled(t.conns[p].senders) <= Doubled(s.conns[p].senders)
  }

  /** What one turn does to a state of a pass. */
  ghost predicate TurnDone(s: Sig, user: UserId, env: Env, u: Updated, t: Sig) {
    SameRoom(s, t) && PeersKnown(t) && user in s.peers && s.pass.Passing?
    && t.index == u.index
    && (forall p :: 0 <= p < |s.conns| ==> t.conns[p] == if p == s.peers[user] then u.conn else s.conns[p])
    && (u.ok ==> t.pass == s.pass.(remaining := s.pass.remaining - {user},
                                   clean := s.pass.clean && env.removeFails == {}))
    && (!u.ok ==> t.pass == NoPass)
  }

  lemma VisitSameRoom(s: Sig, user: UserId, env: Env, u: Updated)
    requires s.pass.Passing? && user in s.peers && UpdateOf(s, s.peers[user], env, u)
    ensures SameRoom(s, AfterVisit(s, user, env, u))
  {
  }

  lemma VisitDone(s: Sig, user: UserId, env: Env, u: Updated)
    requires s.pass.Passing? && user in s.peers && UpdateOf(s, s.peers[user], env, u)
    requires PeersKnown(AfterVisit(s, user, env, u))
    ensures TurnDone(s, user, env, u, AfterVisit(s, user, env, u))
  {
    VisitSameRoom(s, user, env, u);
  }

  /** One turn of the loop is one step of the system. */
  lemma TurnIsStep(s: Sig, u: UserId, env: Env)
    requires Inv(s) && Enabled(s, PassPeer(u, env))
    ensures Inv(Next(s, PassPeer(u, env)))
    ensures TurnDone(s, u, env, UpdateTracksAndShareOffer(s.size, s.conns[s.peers[u]], s.index, env),
                     Next(s, PassPeer(u, env)))
  {
    StepInv(s, PassPeer(u, env));
    UpdateIsUpdate(s, s.peers[u], env);
    VisitDone(s, u, env, Update(s, s.peers[u], env));
  }

  lemma SeenAfterTurn(v: Visited, s: Sig, user: UserId, env: Env, u: Updated, t: Sig)
    requires Sees(v, s) && PeersKnown(s) && TurnDone(s, user, env, u, t)
    ensures Sees(Visited(v.conns[user := u.conn], u.index, u.ok), t)
  {
  }

  function Prefix(order: seq<UserId>, n: nat): set<UserId>
    requires n <= |order|
  {
    set k | 0 <= k < n :: order[k]
  }

  ghost predicate NoRemovalFails(order: seq<UserId>, envs: map<UserId, Env>) {
    forall k :: 0 <= k < |order| ==> order[k] in envs && envs[order[k]].removeFails == {}
  }

  /** A pass that began in s has visited the first n peers, and reached t. */
  ghost predicate Reached(s: Sig, order: seq<UserId>, envs: map<UserId, Env>, n: nat, t: Sig)
    requires n <= |order|
  {
    SameRoom(s, t)
    && (t.pass.Passing? ==> t.pass.remaining == s.peers.Keys - Prefix(order, n) && t.pass.spoiled == {})
    && (t.pass.Passing? && NoRemovalFails(order, envs) ==> t.pass.clean)
  }

  lemma ReachedNext(s: Sig, order: seq<UserId>, envs: map<UserId, Env>, n: nat, t: Sig, u: Updated, t': Sig)
    requires n < |order| && order[n] in envs
    requires Reached(s, order, envs, n, t) && TurnDone(t, order[n], envs[order[n]], u, t')
    ensures Reached(s, order, envs, n + 1, t')
  {
    assert Prefix(order, n + 1) == Prefix(order, n) + {order[n]};
  }

  lemma TurnEnabled(s: Sig, order: seq<UserId>, envs: map<UserId, Env>, n: nat, t: Sig)
    requires PeersKnown(t) && Walk(order, envs, s.peers.Keys, s.index) && n < |order|
    requires Reached(s, order, envs, n, t) && t.pass.Passing?
    ensures Enabled(t, PassPeer(order[n], envs[order[n]]))
  {
    assert order[n] !in Prefix(order, n);
  }

  /** The loop, about to take its n-th turn, and the system agree. */
  ghost predicate InStep(v: Visited, s: Sig, order: seq<UserId>, envs: map<UserId, Env>, n: nat, t: Sig)
    requires n <= |order|
  {
    Inv(t) && Sees(v, t) && Reached(s, order, envs, n, t)
    && forall k :: 0 <= k < |order| ==> order[k] in v.conns && order[k] in envs
  }

  ghost function StaysInStep(s: Sig, order: seq<UserId>, envs: map<UserId, Env>): (Visited, Sig, nat) -> bool {
    (v: Visited, t: Sig, n: nat) => n <= |order| && InStep(v, s, order, envs, n, t)
  }

  lemma OneMoreTurn(v: Visited, s: Sig, order: seq<UserId>, envs: map<UserId, Env>, n: nat, t: Sig)
    requires n < |order| && Walk(order, envs, s.peers.Keys, s.index)
    requires InStep(v, s, order, envs, n, t)
    ensures InStep(VisitOne(s.size, v, order[n], envs[order[n]]), s, order, envs, n + 1,
                   StepOne(t, order[n], envs[order[n]]))
  {
    var u := order[n];
    var env := envs[u];
    if t.pass.Passing? {
      TurnEnabled(s, order, envs, n, t);
      TurnIsStep(t, u, env);
      var r := UpdateTracksAndShareOffer(t.size, t.conns[t.peers[u]], t.index, env);
      SeenAfterTurn(v, t, u, env, r, Next(t, PassPeer(u, env)));
      ReachedNext(s, order, envs, n, t, r, Next(t, PassPeer(u, env)));
    }
  }

  /** What one turn of both keeps, all turns keep. */
  lemma {:induction false} Iterate(
      keeps: (Visited, Sig, nat) -> bool,
      size: nat, v: Visited, order: seq<UserId>, envs: map<UserId, Env>, n: nat, t: Sig)
    requires n <= |order| && keeps(v, t, n)
    requires forall k :: 0 <= k < |order| ==> order[k] in v.conns && order[k] in envs
    requires forall w: Visited, x: Sig, k: nat :: k < |order| && order[k] in w.conns && keeps(w, x, k) ==>
               keeps(VisitOne(size, w, order[k], envs[order[k]]), StepOne(x, order[k], envs[order[k]]), k + 1)
    ensures keeps(VisitFrom(size, v, order, envs, n), StepFrom(t, order, envs, n), |order|)
    decreases |order| - n
  {
    if n < |order| {
      var u := order[n];
      Iterate(keeps, size, VisitOne(size, v, u, envs[u]), order, envs, n + 1, StepOne(t, u, envs[u]));
    }
  }

  lemma EveryTurnKeeps(s: Sig, order: seq<UserId>, envs: map<UserId, Env>)
    requires forall u :: u in order ==> u in envs
    requires Walk(order, envs, s.peers.Keys, s.index)
    ensures forall w: Visited, x: Sig, k: nat ::
              k < |order| && order[k] in w.conns && StaysInStep(s, order, envs)(w, x, k) ==>
                StaysInStep(s, order, envs)(VisitOne(s.size, w, order[k], envs[order[k]]),
                                            StepOne(x, order[k], envs[order[k]]), k + 1)
  {
    forall w: Visited, x: Sig, k: nat | k < |order| && order[k] in w.conns && StaysInStep(s, order, envs)(w, x, k)
      ensures StaysInStep(s, order, envs)(VisitOne(s.size, w, order[k], envs[order[k]]),
                                          StepOne(x, order[k], envs[order[k]]), k + 1)
    {
      OneMoreTurn(w, s, order, envs, k, x);
    }
  }

  /** What the loop computes is what the steps of the system reach. */
  lemma LoopIsSteps(v: Visited, s: Sig, order: seq<UserId>, envs: map<UserId, Env>)
    requires Walk(order, envs, s.peers.Keys, s.index) && InStep(v, s, order, envs, 0, s)
    requires forall k :: 0 <= k < |order| ==> order[k] in v.conns && order[k] in envs
    ensures StaysInStep(s, order, envs)(VisitFrom(s.size, v, order, envs, 0), StepFrom(s, order, envs, 0), |order|)
  {
    EveryTurnKeeps(s, order, envs);
    Iterate(StaysInStep(s, order, envs), s.size, v, order, envs, 0, s);
  }

  /** An uninterrupted pass over all peers of a reachable state, if it returns true, leaves
      every peer with all the tracks it should be sent, each of them in its last offer, and none
      sent twice that was not before; if no removal failed, it sends nothing else. */
  lemma PassReconciles(v: Visited, s: Sig, order: seq<UserId>, envs: map<UserId, Env>, u: UserId)
    requires Inv(s) && s.pass.NoPass? && !s.deleted && u in s.peers && u in v.conns
    requires forall k :: 0 <= k < |order| ==> order[k] in v.conns && order[k] in envs
    requires Walk(order, envs, s.peers.Keys, s.index)
    requires Sees(v, s.(pass := Passing(s.peers.Keys, true, {})))
    ensures var done, expected := VisitFrom(s.size, v, order, envs, 0), Expected(s.size, u, s.index);
            done.ok ==> expected <= Sent(done.conns[u].senders) && expected <= done.conns[u].offered
                        && Doubled(done.conns[u].senders) <= Doubled(v.conns[u].senders)
                        && (NoRemovalFails(order, envs) ==> Sent(done.conns[u].senders) == expected)
  {
    var b := Next(s, PassBegin(false));
    StepInv(s, PassBegin(false));
    LoopIsSteps(v, b, order, envs);
    var done := VisitFrom(s.size, v, order, envs, 0);
    if done.ok {
      PassEnded(done, b, order, envs, u, StepFrom(b, order, envs, 0));
    }
  }

  lemma PassEnded(v: Visited, s: Sig, order: seq<UserId>, envs: map<UserId, Env>, u: UserId, t: Sig)
    requires InStep(v, s, order, envs, |order|, t) && v.ok && u in v.conns
    requires u in s.peers && s.peers[u] < |s.conns|
    requires Walk(order, envs, s.peers.Keys, s.index)
    ensures var expected := Expected(s.size, u, s.index);
            expected <= Sent(v.conns[u].senders) && expected <= v.conns[u].offered
            && Doubled(v.conns[u].senders) <= Doubled(s.conns[s.peers[u]].senders)
            && (NoRemovalFails(order, envs) ==> Sent(v.conns[u].senders) == expected)
  {
    assert u !in t.pass.remaining;
    assert Done(t, u);
    ExpectedFrame(s.size, u, s.index, t.index);
  }

  // ---- when a pass returns true

  predicate CanUpdate(size: nat, c: Conn, index: SliceIndex, env: Env) {
    (Expected(size, c.userId, index) - Sent(c.senders)) !! env.addFails
    && !c.pending && env.offer.createOk && env.offer.setLocalOk && env.offer.sendOk
  }

  lemma CanUpdateFrame(size: nat, c: Conn, before: SliceIndex, after: SliceIndex, user: UserId, env: Env)
    requires Extends(before, after, user)
    ensures CanUpdate(size, c, after, env) == CanUpdate(size, c, before, env)
  {
    ExpectedFrame(size, c.userId, before, after);
  }

  lemma UpdateExtends(size: nat, c: Conn, index: SliceIndex, env: Env)
    requires GoodEnv(env, index)
    ensures Extends(index, UpdateTracksAndShareOffer(size, c, index, env).index, c.userId)
  {
    PrepareOutTracksFacts(size, c.userId, CleanOutTracks(c.senders, index, env.removeFails), index, env);
  }

  /** One turn succeeds exactly when the peer's update can, and changes nothing in what the
      other peers' updates need. */
  lemma TurnSucceedsIff(size: nat, v: Visited, u: UserId, env: Env)
    requires v.ok && u in v.conns && GoodEnv(env, v.index)
    ensures var w := VisitOne(size, v, u, env);
            (w.ok <==> CanUpdate(size, v.conns[u], v.index, env))
            && w.conns == v.conns[u := w.conns[u]] && Extends(v.index, w.index, v.conns[u].userId)
  {
    UpdateSucceedsIff(size, v.conns[u], v.index, env);
    UpdateExtends(size, v.conns[u], v.index, env);
  }

  /** A pass returns true exactly when, for every peer, no AddTrack it needs fails, no offer
      is pending and the steps of the new offer succeed. */
  lemma {:induction false} PassSucceedsIff(size: nat, v: Visited, order: seq<UserId>, envs: map<UserId, Env>, n: nat)
    requires n <= |order| && v.ok
    requires forall k :: 0 <= k < |order| ==> order[k] in v.conns && order[k] in envs
    requires forall j, k :: 0 <= j < k < |order| ==> order[j] != order[k]
    requires forall k :: 0 <= k < |order| ==> GoodEnv(envs[order[k]], v.index)
    ensures VisitFrom(size, v, order, envs, n).ok
       <==> forall k :: n <= k < |order| ==> CanUpdate(size, v.conns[order[k]], v.index, envs[order[k]])
    decreases |order| - n
  {
    if n < |order| {
      var u := order[n];
      TurnSucceedsIff(size, v, u, envs[u]);
      PassSucceedsFrom(size, v, VisitOne(size, v, u, envs[u]), order, envs, n);
    }
  }

  /** What the other peers' updates need is what they needed before the turn. */
  lemma RestUnchanged(
      size: nat, v: Visited, w: Visited, order: seq<UserId>, envs: map<UserId, Env>, n: nat)
    requires n < |order|
    requires forall k :: 0 <= k < |order| ==> order[k] in v.conns && order[k] in envs
    requires forall j, k :: 0 <= j < k < |order| ==> order[j] != order[k]
    requires order[n] in w.conns && w.conns == v.conns[order[n] := w.conns[order[n]]]
    requires Extends(v.index, w.index, v.conns[order[n]].userId)
    ensures forall k :: n < k < |order| ==>
              order[k] in w.conns
              && CanUpdate(size, w.conns[order[k]], w.index, envs[order[k]])
                 == CanUpdate(size, v.conns[order[k]], v.index, envs[order[k]])
  {
    forall k | n < k < |order|
      ensures order[k] in w.conns
      ensures CanUpdate(size, w.conns[order[k]], w.index, envs[order[k]])
           == CanUpdate(size, v.conns[order[k]], v.index, envs[order[k]])
    {
      CanUpdateFrame(size, v.conns[order[k]], v.index, w.index, v.conns[order[n]].userId, envs[order[k]]);
    }
  }

  lemma PassSucceedsFrom(
      size: nat, v: Visited, w: Visited, order: seq<UserId>, envs: map<UserId, Env>, n: nat)
    requires n < |order| && v.ok
    requires forall k :: 0 <= k < |order| ==> order[k] in v.conns && order[k] in envs
    requires forall j, k :: 0 <= j < k < |order| ==> order[j] != order[k]
    requires forall k :: 0 <= k < |order| ==> GoodEnv(envs[order[k]], v.index)
    requires order[n] in w.conns && w.conns == v.conns[order[n] := w.conns[order[n]]]
    requires w.ok <==> CanUpdate(size, v.conns[order[n]], v.index, envs[order[n]])
    requires Extends(v.index, w.index, v.conns[order[n]].userId)
    ensures VisitFrom(size, w, order, envs, n + 1).ok
       <==> forall k :: n <= k < |order| ==> CanUpdate(size, v.conns[order[k]], v.index, envs[order[k]])
    decreases |order| - n, 0
  {
    if w.ok {
      PassSucceedsIff(size, w, order, envs, n + 1);
      RestUnchanged(size, v, w, order, envs, n);
    } else {
      FailedPassStops(size, w, order, envs, n + 1);
    }
  }

  // ---- retries

  /** The step visits a peer whose update fails. */
  predicate Fails(s: Sig, step: Step) {
    step.PassPeer? && step.user in s.peers && s.peers[step.user] < |s.conns|
    && !CanUpdate(s.size, s.conns[s.peers[step.user]], s.index, step.env)
  }

  ghost function Failures(states: seq<Sig>, steps: seq<Step>, k: nat): nat
    requires k <= |steps| < |states|
  {
    if k == 0 then 0 else Failures(states, steps, k - 1) + One(Fails(states[k - 1], steps[k - 1]))
  }

  function RetriesBegun(steps: seq<Step>, k: nat): nat
    requires k <= |steps|
  {
    if k == 0 then 0 else RetriesBegun(steps, k - 1) + One(steps[k - 1] == PassBegin(true))
  }

  lemma VisitLeavesRetry(s: Sig, user: UserId, env: Env)
    requires Enabled(s, PassPeer(user, env))
    ensures Next(s, PassPeer(user, env)).retries == s.retries + One(Fails(s, PassPeer(user, env)))
  {
    UpdateSucceedsIff(s.size, s.conns[s.peers[user]], s.index, env);
  }

  lemma FollowsRetries(s: Sig, step: Step, t: Sig)
    requires Follows(s, step, t)
    ensures t.retries + One(step == PassBegin(true)) == s.retries + One(Fails(s, step))
  {
    if step.PassPeer? {
      VisitLeavesRetry(s, step.user, step.env);
    } else {
      OthersLeaveRetries(s, step);
    }
  }

  lemma OthersLeaveRetries(s: Sig, step: Step)
    requires Enabled(s, step) && !step.PassPeer?
    ensures Next(s, step).retries + One(step == PassBegin(true)) == s.retries
  {
  }

  /** Every failed visit leaves one retry, and every retry makes one pass: those still to come are
      the failures less the retries begun. */
  lemma {:induction false} RetriesCounted(states: seq<Sig>, steps: seq<Step>, k: nat)
    requires Run(states, steps) && k < |states|
    ensures states[k].retries + RetriesBegun(steps, k) == Failures(states, steps, k)
  {
    if k > 0 {
      RetriesCounted(states, steps, k - 1);
      FollowsRetries(states[k - 1], steps[k - 1], states[k]);
    }
  }

  // ---- deleted rooms

  lemma StaysIdle(s: Sig, step: Step, t: Sig)
    requires Follows(s, step, t) && s.deleted && s.pass.NoPass?
    ensures t.deleted && t.pass.NoPass? && !step.PassPeer?
  {
  }

  /** Once a room is deleted and no pass runs, none visits a peer any more. */
  lemma {:induction false} DeletedRoomIdles(states: seq<Sig>, steps: seq<Step>, n: nat, m: nat)
    requires Run(states, steps) && n <= m <= |steps| && states[n].deleted && states[n].pass.NoPass?
    ensures states[m].deleted && states[m].pass.NoPass?
    ensures forall k :: n <= k < m ==> !steps[k].PassPeer?
    decreases m
  {
    if n < m {
      DeletedRoomIdles(states, steps, n, m - 1);
      StaysIdle(states[m - 1], steps[m - 1], states[m]);
    }
  }
}
