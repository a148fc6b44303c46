/** The initial update of a peer connection that nothing runs into (sfu/peer_server.go): its
    steps, taken one by one, make exactly what one whole update makes. */
module InitialUpdate {
  import opened Base
  import opened SignalingSystem
  import opened Tracks

  ghost predicate Leads(s: Sig, steps: seq<Step>, t: Sig)
    decreases |steps|
  {
    if steps == [] then s == t else Enabled(s, steps[0]) && Leads(Next(s, steps[0]), steps[1..], t)
  }

  lemma {:induction false} LeadsOn(s: Sig, steps: seq<Step>, t: Sig, step: Step)
    requires Leads(s, steps, t) && Enabled(t, step)
    ensures Leads(s, steps + [step], Next(t, step))
    decreases |steps|
  {
    if steps == [] {
      assert ([] + [step])[1..] == [];
    } else {
      assert (steps + [step])[1..] == steps[1..] + [step];
      LeadsOn(Next(s, steps[0]), steps[1..], t, step);
    }
  }

  /** A step of the initial update of connection p. */
  predicate Initial(step: Step, p: nat) {
    (step.InitialBegin? || step.InitialClean? || step.InitialCollect? || step.InitialFetch? || step.InitialAdd?
     || step.InitialGivesUp? || step.InitialOffer?)
    && step.p == p
  }

  /** t is reached from s by steps of the initial update of p. */
  ghost predicate Reaches(s: Sig, p: nat, t: Sig) {
    exists steps: seq<Step> :: Leads(s, steps, t) && AllInitial(steps, p)
  }

  predicate AllInitial(steps: seq<Step>, p: nat) {
    forall k :: 0 <= k < |steps| ==> Initial(steps[k], p)
  }

  lemma ReachesItself(s: Sig, p: nat)
    ensures Reaches(s, p, s)
  {
    assert Leads(s, [], s) && AllInitial([], p);
  }

  lemma ReachesNext(s: Sig, p: nat, t: Sig, step: Step)
    requires Reaches(s, p, t) && Enabled(t, step) && Initial(step, p)
    ensures Reaches(s, p, Next(t, step))
  {
    var steps: seq<Step> :| Leads(s, steps, t) && AllInitial(steps, p);
    LeadsOn(s, steps, t, step);
    assert AllInitial(steps + [step], p);
  }

  /** The two states differ at most in connection p, its job, the controllers, and what is known
      of odd senders. */
  ghost predicate OnlyConn(s: Sig, p: nat, t: Sig) {
    HasJob(s, p) && HasJob(t, p)
    && t == s.(conns := s.conns[p := t.conns[p]], jobs := s.jobs[p := t.jobs[p]], index := t.index, odd := t.odd)
  }

  // ---- cleaning

  function CleanedUpTo(senders: Senders, index: SliceIndex, removeFails: set<nat>, n: nat): Senders {
    seq(|senders|, i requires 0 <= i < |senders| =>
      if i < n then CleanSender(senders[i], Live(senders[i], index), i in removeFails) else senders[i])
  }

  lemma CleanedNext(senders: Senders, index: SliceIndex, removeFails: set<nat>, n: nat)
    requires n < |senders|
    ensures var before := CleanedUpTo(senders, index, removeFails, n);
            before[n := CleanSender(before[n], Live(before[n], index), n in removeFails)]
            == CleanedUpTo(senders, index, removeFails, n + 1)
  {
  }

  lemma {:induction false} Cleans(s: Sig, p: nat, removeFails: set<nat>, n: nat) returns (t: Sig)
    requires HasJob(s, p) && s.jobs[p] == Cleaning && n <= |s.conns[p].senders|
    ensures Reaches(s, p, t)
    ensures t == WithSenders(s, p, CleanedUpTo(s.conns[p].senders, s.index, removeFails, n))
    decreases n
  {
    if n == 0 {
      assert CleanedUpTo(s.conns[p].senders, s.index, removeFails, 0) == s.conns[p].senders;
      t := s;
      ReachesItself(s, p);
    } else {
      t := Cleans(s, p, removeFails, n - 1);
      t := CleansOne(s, p, removeFails, n - 1, t);
    }
  }

  lemma CleansOne(s: Sig, p: nat, removeFails: set<nat>, n: nat, t: Sig) returns (u: Sig)
    requires HasJob(s, p) && s.jobs[p] == Cleaning && n < |s.conns[p].senders| && Reaches(s, p, t)
    requires t == WithSenders(s, p, CleanedUpTo(s.conns[p].senders, s.index, removeFails, n))
    ensures Reaches(s, p, u)
    ensures u == WithSenders(s, p, CleanedUpTo(s.conns[p].senders, s.index, removeFails, n + 1))
  {
    CleanedNext(s.conns[p].senders, s.index, removeFails, n);
    var step := InitialClean(p, n, n in removeFails);
    ReachesNext(s, p, t, step);
    u := Next(t, step);
  }

  // ---- the walk over the tracks

  function Walked(order: seq<TrackId>, n: nat): set<TrackId>
    requires n <= |order|
  {
    set i | 0 <= i < n :: order[i]
  }

  /** After n tracks of the walk that began in s: as far as the loop of an update has come by
      then, or given up where it has. */
  ghost predicate Walking(s: Sig, p: nat, env: Env, n: nat, t: Sig)
    requires n <= |env.order|
  {
    OnlyConn(s, p, t)
    && var c := s.conns[p];
       var st := PrepareUpTo(s.size, c.userId, c.senders, s.index, env, n);
       t.index == st.index && t.conns[p] == c.(senders := st.senders)
       && t.jobs[p] == if st.ok then Adding(AlreadySent(c.senders, s.index), Walked(env.order, n), None) else Ended
  }

  lemma FetchSkips(s: Sig, p: nat, env: Env, n: nat, t: Sig)
    requires n < |env.order| && Walking(s, p, env, n, t) && t.jobs[p].Adding? && env.order[n] in t.index
    requires env.order[n] !in Walked(env.order, n)
    requires Fetched(t, p, env.order[n]).hand.None?
    ensures Walking(s, p, env, n + 1, WithJob(t, p, Fetched(t, p, env.order[n])))
  {
    assert Walked(env.order, n + 1) == Walked(env.order, n) + {env.order[n]};
  }

  lemma FetchFails(s: Sig, p: nat, env: Env, n: nat, t: Sig)
    requires n < |env.order| && Walking(s, p, env, n, t) && t.jobs[p].Adding? && env.order[n] in t.index
    requires Fetched(t, p, env.order[n]).hand.Some? && env.order[n] in env.addFails
    ensures Walking(s, p, env, n + 1, WithJob(WithJob(t, p, Fetched(t, p, env.order[n])), p, Ended))
  {
  }

  lemma FetchAdds(s: Sig, p: nat, env: Env, n: nat, t: Sig)
    requires n < |env.order| && Walking(s, p, env, n, t) && t.jobs[p].Adding? && env.order[n] in t.index
    requires Fetched(t, p, env.order[n]).hand.Some? && env.order[n] !in env.addFails
    ensures Walking(s, p, env, n + 1,
                    WithAdded(WithJob(t, p, Fetched(t, p, env.order[n])), p, env.slots,
                              env.order[n] !in env.oddEncodings))
  {
    assert Walked(env.order, n + 1) == Walked(env.order, n) + {env.order[n]};
  }

  lemma GivenUpStays(s: Sig, p: nat, env: Env, n: nat, t: Sig)
    requires n < |env.order| && Walking(s, p, env, n, t) && !t.jobs[p].Adding?
    ensures Walking(s, p, env, n + 1, t)
  {
  }

  lemma WalkMeets(s: Sig, p: nat, env: Env, n: nat, t: Sig)
    requires n < |env.order| && Walking(s, p, env, n, t) && GoodEnv(env, s.index)
    ensures env.order[n] in t.index && env.order[n] !in Walked(env.order, n)
  {
    PrepareFacts(s.size, s.conns[p].userId, s.conns[p].senders, s.index, env, n);
    assert env.order[n] in env.order;
  }

  lemma OneTrack(s: Sig, p: nat, env: Env, n: nat, t: Sig) returns (u: Sig)
    requires n < |env.order| && Walking(s, p, env, n, t) && GoodEnv(env, s.index) && Reaches(s, p, t)
    ensures Walking(s, p, env, n + 1, u) && Reaches(s, p, u)
  {
    var id := env.order[n];
    WalkMeets(s, p, env, n, t);
    if !t.jobs[p].Adding? {
      GivenUpStays(s, p, env, n, t);
      u := t;
    } else {
      ReachesNext(s, p, t, InitialFetch(p, id));
      u := WithJob(t, p, Fetched(t, p, id));
      if u.jobs[p].hand.None? {
        FetchSkips(s, p, env, n, t);
      } else {
        u := TakesHand(s, p, env, n, t, u);
      }
    }
  }

  lemma TakesHand(s: Sig, p: nat, env: Env, n: nat, t: Sig, fetched: Sig) returns (u: Sig)
    requires n < |env.order| && Walking(s, p, env, n, t) && t.jobs[p].Adding? && env.order[n] in t.index
    requires fetched == WithJob(t, p, Fetched(t, p, env.order[n])) && fetched.jobs[p].hand.Some?
    requires Reaches(s, p, fetched)
    ensures Walking(s, p, env, n + 1, u) && Reaches(s, p, u)
  {
    if env.order[n] in env.addFails {
      FetchFails(s, p, env, n, t);
      ReachesNext(s, p, fetched, InitialGivesUp(p));
      u := WithJob(fetched, p, Ended);
    } else {
      FetchAdds(s, p, env, n, t);
      ReachesNext(s, p, fetched, InitialAdd(p, env.slots, env.order[n] !in env.oddEncodings));
      u := WithAdded(fetched, p, env.slots, env.order[n] !in env.oddEncodings);
    }
  }

  lemma NothingWalked(s: Sig, p: nat, env: Env)
    requires HasJob(s, p) && s.jobs[p] == Adding(AlreadySent(s.conns[p].senders, s.index), {}, None)
    ensures Walking(s, p, env, 0, s)
  {
  }

  lemma {:induction false} Walks(s: Sig, p: nat, env: Env, n: nat) returns (t: Sig)
    requires HasJob(s, p) && n <= |env.order| && GoodEnv(env, s.index)
    requires s.jobs[p] == Adding(AlreadySent(s.conns[p].senders, s.index), {}, None)
    ensures Walking(s, p, env, n, t) && Reaches(s, p, t)
    decreases n
  {
    if n == 0 {
      t := s;
      ReachesItself(s, p);
      NothingWalked(s, p, env);
    } else {
      t := Walks(s, p, env, n - 1);
      t := OneTrack(s, p, env, n - 1, t);
    }
  }

  // ---- the whole

  lemma {:induction false} LeadsConcat(s: Sig, a: seq<Step>, t: Sig, b: seq<Step>, u: Sig)
    requires Leads(s, a, t) && Leads(t, b, u)
    ensures Leads(s, a + b, u)
    decreases |a|
  {
    if a == [] {
      assert a + b == b;
    } else {
      assert (a + b)[1..] == a[1..] + b;
      LeadsConcat(Next(s, a[0]), a[1..], t, b, u);
    }
  }

  lemma ReachesOn(s: Sig, p: nat, t: Sig, u: Sig)
    requires Reaches(s, p, t) && Reaches(t, p, u)
    ensures Reaches(s, p, u)
  {
    var a: seq<Step> :| Leads(s, a, t) && AllInitial(a, p);
    var b: seq<Step> :| Leads(t, b, u) && AllInitial(b, p);
    LeadsConcat(s, a, t, b, u);
    assert AllInitial(a + b, p);
  }

  lemma Prepares(s: Sig, p: nat, env: Env) returns (c: Sig, t: Sig)
    requires HasJob(s, p) && s.jobs[p] == NotBegun && GoodEnv(env, s.index)
    ensures OnlyConn(s, p, c) && c.index == s.index && Walking(c, p, env, |env.order|, t) && Reaches(s, p, t)
    ensures c.conns[p] == s.conns[p].(senders := CleanOutTracks(s.conns[p].senders, s.index, env.removeFails))
  {
    var n := |s.conns[p].senders|;
    ReachesItself(s, p);
    ReachesNext(s, p, s, InitialBegin(p));
    var begun := WithJob(s, p, Cleaning);
    var cleaned := Cleans(begun, p, env.removeFails, n);
    ReachesOn(s, p, begun, cleaned);
    ReachesNext(s, p, cleaned, InitialCollect(p));
    c := WithJob(cleaned, p, Adding(AlreadySent(cleaned.conns[p].senders, s.index), {}, None));
    assert CleanedUpTo(s.conns[p].senders, s.index, env.removeFails, n)
        == CleanOutTracks(s.conns[p].senders, s.index, env.removeFails);
    t := Walks(c, p, env, |env.order|);
    ReachesOn(s, p, c, t);
  }

  /** Left alone, the steps of an initial update reach the end of it, with the connection and the
      controllers that one whole update makes of them, and nothing else changed. So all that
      holds of an update holds of it. */
  lemma AloneIsUpdate(s: Sig, p: nat, env: Env) returns (t: Sig)
    requires HasJob(s, p) && s.jobs[p] == NotBegun && GoodEnv(env, s.index)
    ensures Reaches(s, p, t) && OnlyConn(s, p, t) && t.jobs[p] == Ended
    ensures var u := UpdateTracksAndShareOffer(s.size, s.conns[p], s.index, env);
            t.conns[p] == u.conn && t.index == u.index
  {
    var c, w := Prepares(s, p, env);
    if w.jobs[p].Adding? {
      t := Offers(s, p, env, c, w);
    } else {
      t := w;
    }
  }

  lemma Offers(s: Sig, p: nat, env: Env, c: Sig, w: Sig) returns (t: Sig)
    requires OnlyConn(s, p, c) && c.index == s.index && Walking(c, p, env, |env.order|, w) && Reaches(s, p, w)
    requires c.conns[p] == s.conns[p].(senders := CleanOutTracks(s.conns[p].senders, s.index, env.removeFails))
    requires w.jobs[p].Adding?
    ensures Reaches(s, p, t) && OnlyConn(s, p, t) && t.jobs[p] == Ended
    ensures var u := UpdateTracksAndShareOffer(s.size, s.conns[p], s.index, env);
            t.conns[p] == u.conn && t.index == u.index
  {
    ReachesNext(s, p, w, InitialOffer(p, env.offer));
    t := Next(w, InitialOffer(p, env.offer));
  }
}
