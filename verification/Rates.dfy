/** The rates the encoder follows, over runs of signaling: what each controller's rate is made
    of, and what a tick makes of all of them (sfu/sender_controller.go, sfu/mixer_slice.go). */
module Rates {
  import opened Base
  import opened PipelineProtocol
  import opened RateControl
  import opened SignalingSystem
  import opened Tracks

  // ---- the least rate

  /** The loss-based rate of some controller, and of none more; or the same of the rate
      congestion control set. */
  ghost predicate LeastLoss(rate: nat, controllers: map<UserId, Controller>) {
    (exists u :: u in controllers && controllers[u].loss == rate)
    && forall u :: u in controllers ==> rate <= controllers[u].loss
  }

  ghost predicate LeastTarget(rate: nat, controllers: map<UserId, Controller>) {
    (exists u :: u in controllers && controllers[u].cc == rate)
    && forall u :: u in controllers ==> rate <= controllers[u].cc
  }

  lemma LeastRateIs(rate: nat, controllers: map<UserId, Controller>, gcc: bool)
    ensures IsMinRate(rate, controllers, gcc)
       <==> if gcc then LeastTarget(rate, controllers) else LeastLoss(rate, controllers)
  {
    if IsMinRate(rate, controllers, gcc) {
      var u :| u in controllers && Rate(controllers[u], gcc) == rate;
      assert if gcc then controllers[u].cc == rate else controllers[u].loss == rate;
    }
    if !gcc && LeastLoss(rate, controllers) {
      var u :| u in controllers && controllers[u].loss == rate;
      assert Rate(controllers[u], gcc) == rate;
    }
    if gcc && LeastTarget(rate, controllers) {
      var u :| u in controllers && controllers[u].cc == rate;
      assert Rate(controllers[u], gcc) == rate;
    }
  }

  lemma LeastOfMore(
      rate: nat, rest: map<UserId, Controller>, controllers: map<UserId, Controller>, u: UserId, gcc: bool)
    requires u in controllers && rest == controllers - {u} && IsMinRate(rate, rest, gcc)
    ensures var own := Rate(controllers[u], gcc); IsMinRate(if own < rate then own else rate, controllers, gcc)
  {
    var w :| w in rest && Rate(rest[w], gcc) == rate;
    assert Rate(controllers[w], gcc) == rate;
    forall x | x in controllers && x != u ensures rate <= Rate(controllers[x], gcc) {
      assert x in rest;
    }
  }

  lemma {:induction false} LeastExists(controllers: map<UserId, Controller>, gcc: bool) returns (rate: nat)
    requires controllers != map[]
    ensures IsMinRate(rate, controllers, gcc)
    decreases controllers.Keys
  {
    var u :| u in controllers;
    var rest := controllers - {u};
    var own := Rate(controllers[u], gcc);
    if rest == map[] {
      rate := own;
      forall x | x in controllers ensures x == u {
        assert x != u ==> x in rest;
      }
    } else {
      rate := LeastExists(rest, gcc);
      LeastOfMore(rate, rest, controllers, u, gcc);
      rate := if own < rate then own else rate;
    }
  }

  /** Every tick on an indexed video slice with controllers computes a rate: without congestion
      control the least of the loss-based rates, which lies in the video limits and becomes the
      target; with it the least of the rates it has set, which becomes the target unless some
      controller has none yet. */
  lemma TickTakesLeast(states: seq<Sig>, steps: seq<Step>, k: nat)
    requires Run(states, steps) && k < |steps| && steps[k].EncoderTick?
    ensures var s, id, rate := states[k], steps[k].id, steps[k].rate;
            id in s.index && id in states[k + 1].index
            && (!s.gcc ==> LeastLoss(rate, s.index[id].controllers) && 150000 <= rate <= 1800000)
            && (s.gcc ==> LeastTarget(rate, s.index[id].controllers))
            && states[k + 1].index[id].target == (if rate > 0 then rate else s.index[id].target)
  {
    var s, id, rate := states[k], steps[k].id, steps[k].rate;
    ReachableInv(states, steps, k);
    assert Follows(s, steps[k], states[k + 1]);
    LeastRateIs(rate, s.index[id].controllers, s.gcc);
    assert GoodSlice(s.index[id]);
    if !s.gcc {
      var u :| u in s.index[id].controllers && s.index[id].controllers[u].loss == rate;
      assert GoodController(s.index[id].kind, s.index[id].controllers[u]);
    }
  }

  /** Such a tick is always possible. */
  lemma TickPossible(s: Sig, id: TrackId) returns (rate: nat)
    requires id in s.index && s.index[id].kind == Video && s.index[id].controllers != map[]
    ensures Enabled(s, EncoderTick(id, rate))
  {
    rate := LeastExists(s.index[id].controllers, s.gcc);
  }

  // ---- what a controller's rates are made of

  /** The step may give the user a new sender of the track, and with it a new controller. */
  predicate MayRemake(s: Sig, step: Step, id: TrackId, user: UserId) {
    match step
    case PassPeer(u, _) => u == user
    case InitialAdd(p, _, _) =>
      HasJob(s, p) && HandFull(s.jobs[p]) && s.jobs[p].hand.value == id && s.conns[p].userId == user
    case _ => false
  }

  function ControllerAfter(c: Controller, kind: Kind, step: Step, id: TrackId, user: UserId): Controller {
    match step
    case LossReport(x, u, loss) =>
      if x == id && u == user then c.(loss := UpdatedRate(ConfigOf(kind), c.loss, loss)) else c
    case TargetChange(x, u, bitrate) =>
      if x == id && u == user then c.(cc := CapRate(ConfigOf(kind), bitrate)) else c
    case _ => c
  }

  lemma ExtendedKeeps(before: SliceIndex, after: SliceIndex, other: UserId, id: TrackId, user: UserId)
    requires Extends(before, after, other) && id in before && user in before[id].controllers && user != other
    ensures id in after && after[id].kind == before[id].kind
    ensures user in after[id].controllers && after[id].controllers[user] == before[id].controllers[user]
  {
  }

  lemma UpdatedExtends(size: nat, c: Conn, index: SliceIndex, env: Env, owners: map<TrackId, UserId>, u: Updated)
    requires UpdateEffect(size, c, index, env, owners, u)
    ensures Extends(index, u.index, c.userId)
  {
  }

  lemma VisitExtends(s: Sig, u: UserId, env: Env)
    requires PeersKnown(s) && SendersSafe(s) && Enabled(s, PassPeer(u, env))
    ensures Extends(s.index, Next(s, PassPeer(u, env)).index, u)
  {
    var p := s.peers[u];
    UpdateIsUpdate(s, p, env);
    UpdatedExtends(s.size, s.conns[p], s.index, env, s.owners, Update(s, p, env));
  }

  lemma VisitKeepsController(s: Sig, u: UserId, env: Env, id: TrackId, user: UserId)
    requires PeersKnown(s) && SendersSafe(s) && Enabled(s, PassPeer(u, env)) && HasController(s, id, user) && u != user
    ensures var t := Next(s, PassPeer(u, env));
            HasController(t, id, user) && t.index[id].kind == s.index[id].kind
            && t.index[id].controllers[user] == s.index[id].controllers[user]
  {
    VisitExtends(s, u, env);
    ExtendedKeeps(s.index, Next(s, PassPeer(u, env)).index, u, id, user);
  }

  lemma AddKeepsController(s: Sig, step: Step, id: TrackId, user: UserId)
    requires Enabled(s, step) && step.InitialAdd? && HasController(s, id, user) && !MayRemake(s, step, id, user)
    ensures var t := Next(s, step);
            HasController(t, id, user) && t.index[id].controllers[user] == s.index[id].controllers[user]
  {
  }

  lemma ReportToController(s: Sig, step: Step, id: TrackId, user: UserId)
    requires Enabled(s, step) && (step.LossReport? || step.TargetChange?) && HasController(s, id, user)
    ensures var t := Next(s, step);
            HasController(t, id, user)
            && t.index[id].controllers[user]
               == ControllerAfter(s.index[id].controllers[user], s.index[id].kind, step, id, user)
            && t.index[id].kind == s.index[id].kind
  {
  }

  lemma TopologyKeepsController(s: Sig, step: Step, id: TrackId, user: UserId)
    requires Enabled(s, step) && (step.IndexSlice? || step.RemoveSlice? || step.EncoderTick?)
    requires OwnersKnown(s.index, s.owners) && HasController(s, id, user) && id in Next(s, step).index
    ensures var t := Next(s, step);
            t.index[id].controllers == s.index[id].controllers && t.index[id].kind == s.index[id].kind
  {
  }

  lemma SameIndex(s: Sig, step: Step)
    requires Enabled(s, step) && !step.PassPeer? && !step.InitialAdd? && !step.LossReport? && !step.TargetChange?
    requires !step.IndexSlice? && !step.RemoveSlice? && !step.EncoderTick?
    ensures Next(s, step).index == s.index
  {
  }

  lemma OtherKeepsController(s: Sig, step: Step, id: TrackId, user: UserId)
    requires Enabled(s, step) && !step.PassPeer? && !step.InitialAdd? && !step.LossReport? && !step.TargetChange?
    requires OwnersKnown(s.index, s.owners) && HasController(s, id, user) && id in Next(s, step).index
    ensures var t := Next(s, step);
            t.index[id].controllers == s.index[id].controllers && t.index[id].kind == s.index[id].kind
  {
    if step.IndexSlice? || step.RemoveSlice? || step.EncoderTick? {
      TopologyKeepsController(s, step, id, user);
    } else {
      SameIndex(s, step);
    }
  }

  /** A step changes a controller only by a report or a target for it, unless it makes the user
      a new sender of the track. */
  lemma ControllerStep(s: Sig, step: Step, id: TrackId, user: UserId)
    requires PeersKnown(s) && SendersSafe(s) && Enabled(s, step) && HasController(s, id, user)
    requires id in Next(s, step).index && !MayRemake(s, step, id, user)
    ensures var t := Next(s, step);
            HasController(t, id, user) && t.index[id].kind == s.index[id].kind
            && t.index[id].controllers[user]
               == ControllerAfter(s.index[id].controllers[user], s.index[id].kind, step, id, user)
  {
    match step
    case PassPeer(u, env) =>
      VisitKeepsController(s, u, env, id, user);
    case InitialAdd(p, slots, oneEncoding) =>
      AddOneExpected(s, p, slots, oneEncoding);
      AddKeepsController(s, step, id, user);
    case LossReport(_, _, _) => ReportToController(s, step, id, user);
    case TargetChange(_, _, _) => ReportToController(s, step, id, user);
    case _ => OtherKeepsController(s, step, id, user);
  }

  /** The losses reported about the user's copy of the track, in order. */
  function LossesIn(steps: seq<Step>, n: nat, m: nat, id: TrackId, user: UserId): seq<FractionLost>
    requires n <= m <= |steps|
    decreases m
  {
    if m == n then []
    else
      LossesIn(steps, n, m - 1, id, user)
      + if steps[m - 1].LossReport? && steps[m - 1].id == id && steps[m - 1].user == user
        then [steps[m - 1].loss] else []
  }

  /** The bitrate congestion control last asked for. */
  function LastTarget(steps: seq<Step>, n: nat, m: nat, id: TrackId, user: UserId): Option<int>
    requires n <= m <= |steps|
    decreases m
  {
    if m == n then None
    else if steps[m - 1].TargetChange? && steps[m - 1].id == id && steps[m - 1].user == user
    then Some(steps[m - 1].bitrate)
    else LastTarget(steps, n, m - 1, id, user)
  }

  /** The controller that was there in state n is still there in state m. */
  ghost predicate Kept(states: seq<Sig>, steps: seq<Step>, n: nat, m: nat, id: TrackId, user: UserId)
    requires n <= m <= |steps| < |states|
  {
    HasController(states[n], id, user)
    && forall k :: n <= k < m ==> KeptBy(states[k], steps[k], states[k + 1], id, user)
  }

  predicate KeptBy(s: Sig, step: Step, t: Sig, id: TrackId, user: UserId) {
    id in t.index && !MayRemake(s, step, id, user)
  }

  /** What a controller's rates become. */
  ghost predicate RatesMade(c: Controller, kind: Kind, losses: seq<FractionLost>, target: Option<int>, d: Controller) {
    d.loss == AfterReports(ConfigOf(kind), c.loss, losses)
    && d.cc == if target.Some? then CapRate(ConfigOf(kind), target.value) else c.cc
  }

  lemma OneMoreReport(
      c: Controller, kind: Kind, losses: seq<FractionLost>, target: Option<int>, d: Controller,
      step: Step, id: TrackId, user: UserId)
    requires RatesMade(c, kind, losses, target, d)
    ensures var about := step.LossReport? && step.id == id && step.user == user;
            var asks := step.TargetChange? && step.id == id && step.user == user;
            RatesMade(c, kind, losses + (if about then [step.loss] else []),
                      if asks then Some(step.bitrate) else target, ControllerAfter(d, kind, step, id, user))
  {
    if step.LossReport? && step.id == id && step.user == user {
      AfterReportsSnoc(ConfigOf(kind), c.loss, losses, step.loss);
    } else {
      assert losses + [] == losses;
    }
  }

  /** Over every run, as long as the user is made no new sender of the track: her controller's
      loss-based rate is what the losses reported meanwhile make of the rate it had, and the
      other rate is the last one congestion control asked for, within the limits. */
  lemma {:induction false} RatesFromReports(
      states: seq<Sig>, steps: seq<Step>, n: nat, m: nat, id: TrackId, user: UserId)
    requires Run(states, steps) && n <= m <= |steps| && Kept(states, steps, n, m, id, user)
    ensures HasController(states[m], id, user) && states[m].index[id].kind == states[n].index[id].kind
    ensures RatesMade(states[n].index[id].controllers[user], states[n].index[id].kind,
                      LossesIn(steps, n, m, id, user), LastTarget(steps, n, m, id, user),
                      states[m].index[id].controllers[user])
    decreases m
  {
    if n < m {
      RatesFromReports(states, steps, n, m - 1, id, user);
      var s, step, t := states[m - 1], steps[m - 1], states[m];
      RunFollows(states, steps, m - 1);
      assert KeptBy(s, step, t, id, user);
      ControllerFollows(s, step, t, id, user);
      OneMoreReport(states[n].index[id].controllers[user], s.index[id].kind, LossesIn(steps, n, m - 1, id, user),
                    LastTarget(steps, n, m - 1, id, user), s.index[id].controllers[user], step, id, user);
    }
  }

  lemma RunFollows(states: seq<Sig>, steps: seq<Step>, k: nat)
    requires Run(states, steps) && k < |steps|
    ensures PeersKnown(states[k]) && SendersSafe(states[k]) && Follows(states[k], steps[k], states[k + 1])
  {
    ReachableInv(states, steps, k);
  }

  lemma ControllerFollows(s: Sig, step: Step, t: Sig, id: TrackId, user: UserId)
    requires PeersKnown(s) && SendersSafe(s) && Follows(s, step, t) && HasController(s, id, user)
    requires id in t.index && !MayRemake(s, step, id, user)
    ensures HasController(t, id, user) && t.index[id].kind == s.index[id].kind
    ensures t.index[id].controllers[user]
         == ControllerAfter(s.index[id].controllers[user], s.index[id].kind, step, id, user)
  {
    ControllerStep(s, step, id, user);
  }

  /** A track newly sent over one encoding leaves the user with a controller at the default rate,
      whatever she had before. */
  lemma NewSenderStartsAfresh(s: Sig, step: Step, p: nat, id: TrackId)
    requires Inv(s) && Enabled(s, step) && p < |s.conns| && p < |Next(s, step).conns|
    requires id in Sent(Next(s, step).conns[p].senders) && id !in Sent(s.conns[p].senders)
    ensures var t, user := Next(s, step), s.conns[p].userId;
            id in t.index ==> HasFreshController(t.index[id], user) || (user, id) in t.odd
  {
    match step
    case PassPeer(user, env) => VisitStartsAfresh(s, user, env, p, id);
    case InitialAdd(q, slots, _) => PlaceFacts(s.conns[q].senders, s.jobs[q].hand.value, slots);
    case InitialClean(q, i, fails) => CleanOne(s.conns[q].senders, i, s.index, fails);
    case _ => QuietDoublesNothing(s, step, p);
  }

  lemma VisitStartsAfresh(s: Sig, user: UserId, env: Env, p: nat, id: TrackId)
    requires PeersKnown(s) && SendersSafe(s) && Enabled(s, PassPeer(user, env)) && p < |s.conns|
    requires var t := Next(s, PassPeer(user, env));
             p < |t.conns| && id in Sent(t.conns[p].senders) && id !in Sent(s.conns[p].senders)
    ensures var t := Next(s, PassPeer(user, env));
            id in t.index ==> HasFreshController(t.index[id], s.conns[p].userId) || (s.conns[p].userId, id) in t.odd
  {
    var q := s.peers[user];
    UpdateIsUpdate(s, q, env);
    UpdatedAfresh(s, q, env, Update(s, q, env), p, id);
  }

  lemma UpdatedAfresh(s: Sig, q: nat, env: Env, u: Updated, p: nat, id: TrackId)
    requires UpdateOf(s, q, env, u) && p < |s.conns|
    requires id in Sent(WithUpdated(s, q, env, u).conns[p].senders) && id !in Sent(s.conns[p].senders)
    ensures p == q
    ensures id !in env.oddEncodings ==> id in u.index && HasFreshController(u.index[id], s.conns[p].userId)
    ensures id in env.oddEncodings ==> (s.conns[p].userId, id) in NewOdd(s, q, env, u)
  {
  }

  /** In every reachable state a controller's rates lie in the limits of its kind, but for one
      congestion control has not set yet. */
  lemma RatesInLimits(states: seq<Sig>, steps: seq<Step>, k: nat, id: TrackId, user: UserId)
    requires Run(states, steps) && k < |states| && HasController(states[k], id, user)
    ensures var slice := states[k].index[id];
            var c := slice.controllers[user];
            var low := if slice.kind == Audio then 32000 else 150000;
            var high := if slice.kind == Audio then 64000 else 1800000;
            low <= c.loss <= high && (c.cc == 0 || low <= c.cc <= high)
  {
    ReachableInv(states, steps, k);
    assert GoodSlice(states[k].index[id]);
    assert GoodController(states[k].index[id].kind, states[k].index[id].controllers[user]);
  }

  // ---- what a target is made of

  /** The last positive rate of the track's ticks, 0 if there was none. */
  function LastTick(steps: seq<Step>, n: nat, m: nat, id: TrackId): nat
    requires n <= m <= |steps|
    decreases m
  {
    if m == n then 0
    else if steps[m - 1].EncoderTick? && steps[m - 1].id == id && steps[m - 1].rate > 0 then steps[m - 1].rate
    else LastTick(steps, n, m - 1, id)
  }

  lemma OtherKeepsTarget(s: Sig, step: Step, id: TrackId)
    requires PeersKnown(s) && Enabled(s, step) && id in s.index && id in Next(s, step).index
    requires !step.PassPeer? && !step.InitialAdd?
    ensures Next(s, step).index[id].target
         == if step.EncoderTick? && step.id == id && step.rate > 0 then step.rate else s.index[id].target
  {
  }

  lemma VisitKeepsTarget(s: Sig, u: UserId, env: Env, id: TrackId)
    requires PeersKnown(s) && SendersSafe(s) && Enabled(s, PassPeer(u, env)) && id in s.index
    ensures id in Next(s, PassPeer(u, env)).index
    ensures Next(s, PassPeer(u, env)).index[id].target == s.index[id].target
  {
    VisitExtends(s, u, env);
  }

  lemma FollowsTarget(s: Sig, step: Step, t: Sig, id: TrackId)
    requires PeersKnown(s) && SendersSafe(s) && Follows(s, step, t) && id in s.index && id in t.index
    ensures t.index[id].target
         == if step.EncoderTick? && step.id == id && step.rate > 0 then step.rate else s.index[id].target
  {
    match step
    case PassPeer(u, env) => VisitKeepsTarget(s, u, env, id);
    case InitialAdd(p, slots, oneEncoding) => AddOneExpected(s, p, slots, oneEncoding);
    case _ => OtherKeepsTarget(s, step, id);
  }

  lemma IndexedWithoutTarget(s: Sig, step: Step, t: Sig)
    requires Follows(s, step, t) && step.IndexSlice?
    ensures step.id in t.index && t.index[step.id].target == 0 && t.index[step.id].controllers == map[]
  {
  }

  /** Over every run, the target of a slice is the last positive rate of its ticks since it was
      indexed, and unset before the first. */
  lemma {:induction false} TargetFromTicks(states: seq<Sig>, steps: seq<Step>, n: nat, m: nat, id: TrackId)
    requires Run(states, steps) && n < m <= |steps| && steps[n].IndexSlice? && steps[n].id == id
    requires forall k :: n < k <= m ==> id in states[k].index
    ensures states[m].index[id].target == LastTick(steps, n + 1, m, id)
    decreases m
  {
    if m == n + 1 {
      IndexedWithoutTarget(states[n], steps[n], states[m]);
    } else {
      TargetFromTicks(states, steps, n, m - 1, id);
      RunFollows(states, steps, m - 1);
      FollowsTarget(states[m - 1], steps[m - 1], states[m], id);
    }
  }

  // ---- senders without a controller

  /** The step makes the user a new sender of the track that has not exactly one encoding. */
  ghost predicate MakesOdd(s: Sig, step: Step, t: Sig, user: UserId, id: TrackId) {
    match step
    case PassPeer(u, env) =>
      u in s.peers && s.peers[u] < |s.conns| && s.peers[u] < |t.conns| && s.conns[s.peers[u]].userId == user
      && id in env.oddEncodings
      && id in Sent(t.conns[s.peers[u]].senders) && id !in Sent(s.conns[s.peers[u]].senders)
    case InitialAdd(p, _, oneEncoding) =>
      HasJob(s, p) && HandFull(s.jobs[p]) && s.jobs[p].hand.value == id && s.conns[p].userId == user && !oneEncoding
    case _ => false
  }

  lemma VisitMakesOdd(s: Sig, u: UserId, env: Env, user: UserId, id: TrackId)
    requires Enabled(s, PassPeer(u, env))
    ensures var t := Next(s, PassPeer(u, env));
            (user, id) in t.odd <==> (user, id) in s.odd || MakesOdd(s, PassPeer(u, env), t, user, id)
  {
  }

  lemma FollowsOdd(s: Sig, step: Step, t: Sig, user: UserId, id: TrackId)
    requires Follows(s, step, t)
    ensures (user, id) in t.odd <==> (user, id) in s.odd || MakesOdd(s, step, t, user, id)
  {
    if step.PassPeer? {
      VisitMakesOdd(s, step.user, step.env, user, id);
    }
  }

  ghost predicate MadeOdd(states: seq<Sig>, steps: seq<Step>, k: nat, user: UserId, id: TrackId) {
    exists n :: 0 <= n < k <= |steps| && k < |states| && MakesOdd(states[n], steps[n], states[n + 1], user, id)
  }

  /** The users excepted from what a tick respects are exactly those who were made such a sender
      of its track. */
  lemma {:induction false} OddIff(states: seq<Sig>, steps: seq<Step>, k: nat, user: UserId, id: TrackId)
    requires Run(states, steps) && k < |states|
    ensures (user, id) in states[k].odd <==> MadeOdd(states, steps, k, user, id)
  {
    if k > 0 {
      OddIff(states, steps, k - 1, user, id);
      FollowsOdd(states[k - 1], steps[k - 1], states[k], user, id);
      if MadeOdd(states, steps, k - 1, user, id) {
        var n :| 0 <= n < k - 1 && MakesOdd(states[n], steps[n], states[n + 1], user, id);
        assert MakesOdd(states[n], steps[n], states[n + 1], user, id);
      }
    }
  }
}
