/** The linear interpolator of audio and video effects (sequencing/linear_interpolator.go),
    over real numbers. */
module Interpolation {

  /** Value sent for a tick: the final value once the duration is over, a point of the
      line before. */
  function ValueAt(initialValue: real, finalValue: real, duration: real, elapsed: real): real
    requires elapsed > 0.0
  {
    if elapsed > duration then finalValue
    else initialValue + (finalValue - initialValue) * (elapsed / duration)
  }

  /** All values sent for a sequence of ticks: the tick past the duration is the last. */
  function Emitted(initialValue: real, finalValue: real, duration: real, ticks: seq<real>): seq<real>
    requires forall i :: 0 <= i < |ticks| ==> ticks[i] > 0.0
  {
    if ticks == [] then []
    else [ValueAt(initialValue, finalValue, duration, ticks[0])]
         + if ticks[0] > duration then [] else Emitted(initialValue, finalValue, duration, ticks[1..])
  }

  /** Ticks of a ticker of the given period: the first after one step, then at least one
      step apart. */
  ghost predicate Ticks(step: real, ticks: seq<real>) {
    step > 0.0
    && (forall i :: 0 <= i < |ticks| ==> ticks[i] > 0.0)
    && (|ticks| > 0 ==> ticks[0] >= step)
    && forall i :: 0 <= i < |ticks| - 1 ==> ticks[i + 1] >= ticks[i] + step
  }

  predicate Between(x: real, a: real, b: real) {
    a <= x <= b || b <= x <= a
  }

  lemma ProductNonNegative(x: real, y: real)
    requires x >= 0.0 && y >= 0.0
    ensures x * y >= 0.0
  {
  }

  /** Further along the line is nearer to its end. */
  lemma LineOrdered(a: real, b: real, r: real, s: real)
    requires 0.0 <= r <= s <= 1.0
    ensures Between(a + (b - a) * s, a + (b - a) * r, b)
  {
    var d := b - a;
    var m := if d >= 0.0 then d else -d;
    ProductNonNegative(m, s - r);
    ProductNonNegative(m, 1.0 - s);
    assert m * (s - r) == m * s - m * r && m * (1.0 - s) == m - m * s;
    assert d < 0.0 ==> d * s == -(m * s) && d * r == -(m * r);
  }

  lemma RatioOrdered(d: real, t: real, u: real)
    requires 0.0 <= t <= u <= d && d > 0.0
    ensures 0.0 <= t / d <= u / d <= 1.0
  {
  }

  lemma OneMoreStep(n: nat, step: real)
    ensures (n + 1) as real * step == n as real * step + step
  {
  }

  /** Each value lies between the one before and the final value. */
  ghost predicate GoesTo(out: seq<real>, finalValue: real) {
    forall i :: 0 <= i < |out| - 1 ==> Between(out[i + 1], out[i], finalValue)
  }

  lemma FirstValue(a: real, b: real, duration: real, t: real)
    requires 0.0 < t <= duration
    ensures Between(ValueAt(a, b, duration, t), a, b)
  {
    RatioOrdered(duration, 0.0, t);
    LineOrdered(a, b, 0.0, t / duration);
  }

  lemma NextOnLine(a: real, b: real, duration: real, t: real, u: real)
    requires 0.0 < t <= u <= duration
    ensures Between(ValueAt(a, b, duration, u), ValueAt(a, b, duration, t), b)
  {
    RatioOrdered(duration, t, u);
    LineOrdered(a, b, t / duration, u / duration);
  }

  lemma NextValue(a: real, b: real, duration: real, t: real, u: real)
    requires 0.0 < t <= u && t <= duration
    ensures Between(ValueAt(a, b, duration, t), a, b)
    ensures Between(ValueAt(a, b, duration, u), ValueAt(a, b, duration, t), b)
  {
    FirstValue(a, b, duration, t);
    if u <= duration {
      NextOnLine(a, b, duration, t, u);
    }
  }

  lemma GoesToCons(v: real, rest: seq<real>, b: real)
    requires GoesTo(rest, b) && (rest != [] ==> Between(rest[0], v, b))
    ensures GoesTo([v] + rest, b)
  {
    var out := [v] + rest;
    forall i | 0 <= i < |out| - 1 ensures Between(out[i + 1], out[i], b) {
      assert out[i + 1] == rest[i];
      assert i > 0 ==> out[i] == rest[i - 1];
    }
  }

  /** Up to the duration the value has gone as far as the time has, in proportion. */
  lemma ValueOnLine(a: real, b: real, duration: real, t: real)
    requires 0.0 < t <= duration
    ensures (ValueAt(a, b, duration, t) - a) * duration == (b - a) * t
  {
    var ratio := t / duration;
    assert ratio * duration == t;
    assert ((b - a) * ratio) * duration == (b - a) * (ratio * duration);
  }

  /** The k-th value is sent for the k-th tick: on the line up to the duration, the final value
      after it. */
  lemma {:induction false} EmittedOnLine(a: real, b: real, duration: real, ticks: seq<real>, k: nat)
    requires forall i :: 0 <= i < |ticks| ==> ticks[i] > 0.0
    requires k < |Emitted(a, b, duration, ticks)|
    ensures k < |ticks|
    ensures var out := Emitted(a, b, duration, ticks);
            if ticks[k] > duration then out[k] == b else (out[k] - a) * duration == (b - a) * ticks[k]
    decreases k
  {
    if k == 0 {
      if ticks[0] <= duration {
        ValueOnLine(a, b, duration, ticks[0]);
      }
    } else {
      EmittedOnLine(a, b, duration, ticks[1..], k - 1);
    }
  }

  /** The values go monotonically from the initial towards the final value. */
  lemma {:induction false} EmittedMonotone(a: real, b: real, duration: real, step: real, ticks: seq<real>)
    requires Ticks(step, ticks)
    ensures GoesTo([a] + Emitted(a, b, duration, ticks), b)
    ensures GoesTo(Emitted(a, b, duration, ticks), b)
    decreases |ticks|
  {
    var out := Emitted(a, b, duration, ticks);
    if ticks != [] {
      var t, tail := ticks[0], ticks[1..];
      if t <= duration {
        EmittedMonotone(a, b, duration, step, tail);
        NextValue(a, b, duration, t, if tail == [] then t else tail[0]);
        GoesToCons(ValueAt(a, b, duration, t), Emitted(a, b, duration, tail), b);
      }
      GoesToCons(a, out, b);
    }
  }

  /** A sequence that goes from one value towards another stays between the two. */
  lemma {:induction false} GoesToStaysBetween(a: real, out: seq<real>, b: real, k: nat)
    requires GoesTo([a] + out, b) && k < |out|
    ensures Between(out[k], a, b)
    decreases k
  {
    var whole := [a] + out;
    assert whole[k + 1] == out[k] && Between(whole[k + 1], whole[k], b);
    if k > 0 {
      assert whole[k] == out[k - 1];
      GoesToStaysBetween(a, out, b, k - 1);
    }
  }

  lemma TailTicks(step: real, ticks: seq<real>)
    requires Ticks(step, ticks) && ticks != []
    ensures Ticks(step, ticks[1..])
    ensures ticks[1..] != [] ==> ticks[1..][0] >= ticks[0] + step
  {
  }

  /** The duration of n steps. */
  function Steps(n: nat, step: real): real {
    if n == 0 then 0.0 else Steps(n - 1, step) + step
  }

  lemma {:induction false} StepsIsProduct(n: nat, step: real)
    ensures Steps(n, step) == n as real * step
  {
    if n > 0 {
      StepsIsProduct(n - 1, step);
      OneMoreStep(n - 1, step);
    }
  }

  lemma {:induction false} CountInSteps(
      a: real, b: real, duration: real, step: real, ticks: seq<real>, first: real)
    requires Ticks(step, ticks)
    requires ticks != [] ==> ticks[0] >= first
    ensures var n := |Emitted(a, b, duration, ticks)|;
            n >= 2 ==> first + Steps(n - 2, step) <= duration
    decreases |ticks|
  {
    if ticks != [] && ticks[0] <= duration {
      TailTicks(step, ticks);
      CountInSteps(a, b, duration, step, ticks[1..], first + step);
      assert |Emitted(a, b, duration, ticks)| == |Emitted(a, b, duration, ticks[1..])| + 1;
    }
  }

  /** When the first tick is not before `first`, the values sent before the last one fit,
      one step apart, between `first` and the duration: with `first` the step itself, at
      most duration/step values precede the last. */
  lemma {:induction false} EmittedCount(a: real, b: real, duration: real, step: real, ticks: seq<real>, first: real)
    requires Ticks(step, ticks)
    requires ticks != [] ==> ticks[0] >= first
    ensures var n := |Emitted(a, b, duration, ticks)|;
            n >= 2 ==> first + (n - 2) as real * step <= duration
  {
    var n := |Emitted(a, b, duration, ticks)|;
    CountInSteps(a, b, duration, step, ticks, first);
    if n >= 2 {
      StepsIsProduct(n - 2, step);
    }
  }

  ghost predicate SomePast(duration: real, ticks: seq<real>) {
    exists i :: 0 <= i < |ticks| && ticks[i] > duration
  }

  /** The final value ends the sequence as soon as a tick passes the duration; until then
      every tick has sent one value. A negative duration sends the final value at once. */
  lemma {:induction false} EmittedEnds(a: real, b: real, duration: real, ticks: seq<real>)
    requires forall i :: 0 <= i < |ticks| ==> ticks[i] > 0.0
    ensures var out := Emitted(a, b, duration, ticks);
            if SomePast(duration, ticks) then |out| > 0 && out[|out| - 1] == b else |out| == |ticks|
    ensures ticks != [] && duration < 0.0 ==> Emitted(a, b, duration, ticks) == [b]
    decreases |ticks|
  {
    if ticks != [] {
      var tail := ticks[1..];
      EmittedEnds(a, b, duration, tail);
      if ticks[0] <= duration {
        assert Emitted(a, b, duration, ticks)
            == [ValueAt(a, b, duration, ticks[0])] + Emitted(a, b, duration, tail);
        if SomePast(duration, ticks) {
          var i :| 0 <= i < |ticks| && ticks[i] > duration;
          assert tail[i - 1] > duration;
        }
        if SomePast(duration, tail) {
          var i :| 0 <= i < |tail| && tail[i] > duration;
          assert ticks[i + 1] > duration;
        }
      }
    }
  }

  lemma NonePastInTail(duration: real, ticks: seq<real>)
    requires ticks != [] && !SomePast(duration, ticks)
    ensures ticks[0] <= duration && !SomePast(duration, ticks[1..])
  {
    var tail := ticks[1..];
    forall k | 0 <= k < |tail| ensures tail[k] <= duration {
      assert tail[k] == ticks[k + 1];
    }
  }

  /** While no tick has passed the duration, the next tick adds its value at the end; once
      one has, the rest of the ticks add nothing. */
  lemma {:induction false} EmittedPrefix(a: real, b: real, duration: real, ticks: seq<real>, i: nat)
    requires forall k :: 0 <= k < |ticks| ==> ticks[k] > 0.0
    requires i < |ticks| && !SomePast(duration, ticks[..i])
    ensures Emitted(a, b, duration, ticks[..i + 1])
         == Emitted(a, b, duration, ticks[..i]) + [ValueAt(a, b, duration, ticks[i])]
    ensures ticks[i] > duration ==> Emitted(a, b, duration, ticks) == Emitted(a, b, duration, ticks[..i + 1])
    decreases i
  {
    if i == 0 {
      assert ticks[..1][1..] == [];
    } else {
      var tail := ticks[1..];
      assert ticks[..i][0] == ticks[0] <= duration;
      assert tail[..i - 1] == ticks[..i][1..] && tail[..i] == ticks[..i + 1][1..];
      NonePastInTail(duration, ticks[..i]);
      EmittedPrefix(a, b, duration, tail, i - 1);
    }
  }

  // ---- the goroutine, its ticker and its channel

  /** One turn of the goroutine's loop: the time passed when it takes a tick, and whether the
      ticker fires again while the goroutine waits for its value to be taken. A ticker holds
      one tick back for its reader, also after it was stopped. */
  datatype Round = Round(elapsed: real, tickMeanwhile: bool)

  ghost predicate GoodRounds(rounds: seq<Round>) {
    forall i :: 0 <= i < |rounds| ==> rounds[i].elapsed > 0.0
  }

  function Elapsed(rounds: seq<Round>): seq<real> {
    seq(|rounds|, i requires 0 <= i < |rounds| => rounds[i].elapsed)
  }

  /** The first round past the duration; the number of rounds if there is none. */
  function Last(duration: real, rounds: seq<Round>): (k: nat)
    ensures k <= |rounds|
    ensures k < |rounds| ==> rounds[k].elapsed > duration
    ensures forall i :: 0 <= i < k ==> rounds[i].elapsed <= duration
    decreases |rounds|
  {
    if rounds == [] then 0
    else if rounds[0].elapsed > duration then 0
    else 1 + Last(duration, rounds[1..])
  }

  /** The interpolator: `sent` is what went through the channel C, `closed` how often it was
      closed. Sending on it, or closing it, once it is closed is a panic. */
  class LinearInterpolator {
    const initialValue: real
    const finalValue: real
    const duration: real
    var sent: seq<real>
    var closed: nat
    var tickerStopped: bool
    var panicked: bool

    constructor (initialValue: real, finalValue: real, duration: real)
      ensures this.initialValue == initialValue && this.finalValue == finalValue && this.duration == duration
      ensures sent == [] && closed == 0 && !tickerStopped && !panicked
    {
      this.initialValue, this.finalValue, this.duration := initialValue, finalValue, duration;
      sent, closed, tickerStopped, panicked := [], 0, false, false;
    }

    method Stop()
      modifies this`closed, this`tickerStopped
      ensures closed == old(closed) + 1 && tickerStopped
    {
      tickerStopped := true;
      closed := closed + 1;
    }

    method Send(value: real)
      modifies this`sent, this`panicked
      ensures if closed > 0 then panicked && sent == old(sent)
              else sent == old(sent) + [value] && panicked == old(panicked)
    {
      if closed > 0 {
        panicked := true;
      } else {
        sent := sent + [value];
      }
    }

    /** What the goroutine does with one tick. */
    method Turn(elapsed: real)
      requires elapsed > 0.0
      modifies this
      ensures if old(closed) > 0
              then panicked && sent == old(sent) && closed == old(closed) && tickerStopped == old(tickerStopped)
              else panicked == old(panicked)
                   && sent == old(sent) + [ValueAt(initialValue, finalValue, duration, elapsed)]
                   && closed == (if elapsed > duration then 1 else 0)
                   && tickerStopped == (old(tickerStopped) || elapsed > duration)
    {
      if elapsed > duration {
        Send(finalValue);
        if closed == 0 {
          Stop();
        }
      } else {
        var ratio := elapsed / duration;
        var currentValue := initialValue + (finalValue - initialValue) * ratio;
        assert currentValue == ValueAt(initialValue, finalValue, duration, elapsed);
        Send(currentValue);
      }
    }

    /** The goroutine's loop over the ticks of an interpolator nobody else stops. A turn takes
        place while the ticker runs or holds a tick back; the rounds after that do not
        happen. The channel gets exactly the specified values and is closed at most once; the
        goroutine panics exactly if the ticker fires while the final value waits to be taken
        (and the goroutine gets to its next turn). */
    method Run(rounds: seq<Round>)
      requires sent == [] && closed == 0 && !tickerStopped && !panicked && GoodRounds(rounds)
      modifies this
      ensures sent == Emitted(initialValue, finalValue, duration, Elapsed(rounds))
      ensures closed == if Last(duration, rounds) < |rounds| then 1 else 0
      ensures var k := Last(duration, rounds); panicked <==> k + 1 < |rounds| && rounds[k].tickMeanwhile
    {
      var i := 0;
      var held := true;
      ghost var k := Last(duration, rounds);
      ghost var all := Emitted(initialValue, finalValue, duration, Elapsed(rounds));
      assert Elapsed(rounds)[..0] == [];
      while i < |rounds| && (!tickerStopped || held) && !panicked
        invariant 0 <= i <= |rounds|
        invariant closed == (if k < i then 1 else 0) && tickerStopped == (k < i)
        invariant !panicked ==> i <= k + 1
        invariant !panicked && i == k + 1 ==> held == rounds[k].tickMeanwhile
        invariant panicked ==> k + 1 < |rounds| && rounds[k].tickMeanwhile && k < i
        invariant sent == if k < i then all else SentBefore(initialValue, finalValue, duration, rounds, i)
      {
        if i <= k {
          RoundAdds(initialValue, finalValue, duration, rounds, i);
        }
        Turn(rounds[i].elapsed);
        held := rounds[i].tickMeanwhile;
        i := i + 1;
      }
      assert Elapsed(rounds)[..|rounds|] == Elapsed(rounds);
    }
  }

  /** The values sent in the first n rounds, none of the earlier ones past the duration. */
  ghost function SentBefore(a: real, b: real, duration: real, rounds: seq<Round>, n: nat): seq<real>
    requires GoodRounds(rounds) && n <= |rounds|
  {
    Emitted(a, b, duration, Elapsed(rounds)[..n])
  }

  /** Up to the first round past the duration, each round adds one value. */
  lemma RoundAdds(a: real, b: real, duration: real, rounds: seq<Round>, i: nat)
    requires GoodRounds(rounds) && i < |rounds| && i <= Last(duration, rounds)
    ensures SentBefore(a, b, duration, rounds, i + 1)
         == SentBefore(a, b, duration, rounds, i) + [ValueAt(a, b, duration, rounds[i].elapsed)]
    ensures i == Last(duration, rounds) ==>
              Emitted(a, b, duration, Elapsed(rounds)) == SentBefore(a, b, duration, rounds, i + 1)
  {
    EmittedPrefix(a, b, duration, Elapsed(rounds), i);
  }

  /** A consumer slower than the ticker at the end: the final value is waiting, the ticker
      fires, and the next turn sends on the closed channel. */
  method PanicHappens() returns (c: LinearInterpolator)
    ensures fresh(c) && c.panicked && c.closed == 1 && c.sent == [1.0]
  {
    c := new LinearInterpolator(0.0, 1.0, 10.0);
    var rounds := [Round(11.0, true), Round(12.0, false)];
    assert Last(10.0, rounds) == 0;
    assert Elapsed(rounds)[0] == 11.0;
    c.Run(rounds);
  }
}
