/** The offers made to one peer connection over a run of signaling, told from the steps alone:
    no second one before the first is answered (sfu/peer_server.go). */
module Offers {
  import opened Base
  import opened SignalingSystem
  import opened Tracks

  /** The step tries to make an offer to connection p, and nothing but a pending one keeps it
      from setting its local description. */
  predicate Attempts(s: Sig, step: Step, p: nat) {
    match step
    case InitialOffer(q, offer) => q == p && offer.createOk && offer.setLocalOk
    case OfferTrigger(q, offer) => q == p && offer.createOk && offer.setLocalOk
    case PassPeer(user, env) =>
      user in s.peers && s.peers[user] == p && p < |s.conns| && SetsLocal(s.size, s.conns[p], s.index, env)
    case _ => false
  }

  predicate Pending(s: Sig, p: nat) {
    p < |s.conns| && s.conns[p].pending
  }

  function OffersOf(s: Sig, p: nat): nat {
    if p < |s.conns| then s.conns[p].offers else 0
  }

  function AnswersOf(s: Sig, p: nat): nat {
    if p < |s.conns| then s.conns[p].answers else 0
  }

  /** What a step does to the offers of a connection. */
  ghost predicate OfferStep(s: Sig, step: Step, t: Sig, p: nat) {
    (Pending(t, p) <==> step != Answer(p) && (Pending(s, p) || Attempts(s, step, p)))
    && OffersOf(t, p) == OffersOf(s, p) + One(Attempts(s, step, p) && !Pending(s, p))
    && AnswersOf(t, p) == AnswersOf(s, p) + One(step == Answer(p) && Pending(s, p))
  }

  lemma VisitOffers(s: Sig, user: UserId, env: Env, p: nat)
    requires Enabled(s, PassPeer(user, env))
    ensures OfferStep(s, PassPeer(user, env), Next(s, PassPeer(user, env)), p)
  {
    var q := s.peers[user];
    UpdateOffers(s.size, s.conns[q], s.index, env);
    assert Next(s, PassPeer(user, env)).conns == s.conns[q := Update(s, q, env).conn];
  }

  lemma ConnectOffers(s: Sig, user: UserId, p: nat)
    requires Enabled(s, ConnectPeer(user))
    ensures OfferStep(s, ConnectPeer(user), Next(s, ConnectPeer(user)), p)
  {
  }

  lemma QuietOffers(s: Sig, step: Step, p: nat)
    requires Enabled(s, step) && !step.PassPeer? && !step.InitialOffer? && !step.OfferTrigger? && !step.Answer?
    requires !step.ConnectPeer?
    ensures OfferStep(s, step, Next(s, step), p)
  {
    var t := Next(s, step);
    assert |t.conns| == |s.conns|;
    assert p < |s.conns| ==> t.conns[p] == s.conns[p].(senders := t.conns[p].senders);
  }

  lemma ExchangeOffers(s: Sig, step: Step, p: nat)
    requires Enabled(s, step) && (step.InitialOffer? || step.OfferTrigger? || step.Answer?)
    ensures OfferStep(s, step, Next(s, step), p)
  {
  }

  lemma FollowsOffers(s: Sig, step: Step, t: Sig, p: nat)
    requires Follows(s, step, t)
    ensures OfferStep(s, step, t, p)
  {
    match step
    case PassPeer(user, env) => VisitOffers(s, user, env, p);
    case InitialOffer(_, _) => ExchangeOffers(s, step, p);
    case OfferTrigger(_, _) => ExchangeOffers(s, step, p);
    case Answer(_) => ExchangeOffers(s, step, p);
    case ConnectPeer(user) => ConnectOffers(s, user, p);
    case _ => QuietOffers(s, step, p);
  }

  // ---- whole runs

  /** An offer was attempted and no answer has come since. */
  ghost predicate Outstanding(states: seq<Sig>, steps: seq<Step>, k: nat, p: nat)
    requires k <= |steps| < |states|
  {
    exists m :: 0 <= m < k && AttemptedAt(states, steps, k, m, p)
  }

  ghost predicate AttemptedAt(states: seq<Sig>, steps: seq<Step>, k: nat, m: nat, p: nat)
    requires m < k <= |steps| < |states|
  {
    Attempts(states[m], steps[m], p) && forall j :: m < j < k ==> steps[j] != Answer(p)
  }

  lemma OutstandingNext(states: seq<Sig>, steps: seq<Step>, k: nat, p: nat)
    requires k < |steps| < |states|
    ensures Outstanding(states, steps, k + 1, p)
       <==> Attempts(states[k], steps[k], p) || (Outstanding(states, steps, k, p) && steps[k] != Answer(p))
  {
    if Outstanding(states, steps, k + 1, p) && !Attempts(states[k], steps[k], p) {
      var m :| 0 <= m < k + 1 && AttemptedAt(states, steps, k + 1, m, p);
      assert AttemptedAt(states, steps, k, m, p);
    }
    if Outstanding(states, steps, k, p) && steps[k] != Answer(p) {
      var m :| 0 <= m < k && AttemptedAt(states, steps, k, m, p);
      assert AttemptedAt(states, steps, k + 1, m, p);
    }
    if Attempts(states[k], steps[k], p) {
      assert AttemptedAt(states, steps, k + 1, k, p);
    }
  }

  /** A connection has an offer pending exactly if one was attempted that nothing but a pending
      one could keep from being made, and no answer has come since. */
  lemma {:induction false} PendingIff(states: seq<Sig>, steps: seq<Step>, k: nat, p: nat)
    requires Run(states, steps) && k < |states|
    ensures Pending(states[k], p) <==> Outstanding(states, steps, k, p)
  {
    if k > 0 {
      PendingIff(states, steps, k - 1, p);
      OutstandingNext(states, steps, k - 1, p);
      FollowsOffers(states[k - 1], steps[k - 1], states[k], p);
    }
  }

  /** The step sets a local description: it is attempted while no offer is out. */
  ghost predicate SetsAt(states: seq<Sig>, steps: seq<Step>, k: nat, p: nat)
    requires k < |steps| < |states|
  {
    Attempts(states[k], steps[k], p) && !Outstanding(states, steps, k, p)
  }

  ghost function OffersMade(states: seq<Sig>, steps: seq<Step>, k: nat, p: nat): nat
    requires k <= |steps| < |states|
  {
    if k == 0 then 0 else OffersMade(states, steps, k - 1, p) + One(SetsAt(states, steps, k - 1, p))
  }

  ghost function AnswersApplied(states: seq<Sig>, steps: seq<Step>, k: nat, p: nat): nat
    requires k <= |steps| < |states|
  {
    if k == 0 then 0
    else AnswersApplied(states, steps, k - 1, p)
         + One(steps[k - 1] == Answer(p) && Outstanding(states, steps, k - 1, p))
  }

  /** The local descriptions a connection has set, and the answers it has applied, are those
      the steps tell. */
  lemma {:induction false} OffersCounted(states: seq<Sig>, steps: seq<Step>, k: nat, p: nat)
    requires Run(states, steps) && k < |states|
    ensures OffersOf(states[k], p) == OffersMade(states, steps, k, p)
    ensures AnswersOf(states[k], p) == AnswersApplied(states, steps, k, p)
  {
    if k > 0 {
      OffersCounted(states, steps, k - 1, p);
      PendingIff(states, steps, k - 1, p);
      FollowsOffers(states[k - 1], steps[k - 1], states[k], p);
    }
  }

  /** Between two local descriptions set on one connection there is an answer. */
  lemma AnswerBetween(states: seq<Sig>, steps: seq<Step>, m: nat, n: nat, p: nat)
    requires Run(states, steps) && m < n < |steps|
    requires OffersOf(states[m + 1], p) > OffersOf(states[m], p)
    requires OffersOf(states[n + 1], p) > OffersOf(states[n], p)
    ensures exists j :: m < j < n && steps[j] == Answer(p)
  {
    FollowsOffers(states[m], steps[m], states[m + 1], p);
    FollowsOffers(states[n], steps[n], states[n + 1], p);
    PendingIff(states, steps, n, p);
    assert !AttemptedAt(states, steps, n, m, p);
  }
}
