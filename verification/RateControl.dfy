/** Loss-based rate control of one sender (sfu/sender_controller.go), after section 6 of
    draft-ietf-rmcat-gcc-02, fed by the 8-bit fraction lost of section 6.4.1 of RFC 3550. */
module RateControl {

  datatype StreamConfig = StreamConfig(defaultBitrate: nat, minBitrate: nat, maxBitrate: nat)

  ghost predicate ValidConfig(c: StreamConfig) {
    0 < c.minBitrate <= c.defaultBitrate <= c.maxBitrate
  }

  const AUDIO_CONFIG := StreamConfig(64000, 32000, 64000)
  const VIDEO_CONFIG := StreamConfig(300000, 150000, 1800000)

  type FractionLost = l: int | 0 <= l <= 255

  ghost predicate InRange(c: StreamConfig, rate: int) {
    c.minBitrate <= rate <= c.maxBitrate
  }

  function CapRate(c: StreamConfig, rate: int): nat {
    if rate > c.maxBitrate then c.maxBitrate
    else if rate < c.minBitrate then c.minBitrate
    else rate
  }

  /** The update before capping. Rates are never negative, so Go's truncating division and
      Dafny's agree. */
  function LossTarget(prev: nat, loss: FractionLost): nat {
    if loss < 5 then prev * 269 / 256
    else if loss > 25 then prev * (512 - loss) / 512
    else prev
  }

  function UpdatedRate(c: StreamConfig, prev: nat, loss: FractionLost): nat {
    CapRate(c, LossTarget(prev, loss))
  }

  /** The rate after a whole sequence of receiver reports. */
  function AfterReports(c: StreamConfig, rate: nat, reports: seq<FractionLost>): nat
    decreases |reports|
  {
    if reports == [] then rate
    else AfterReports(c, UpdatedRate(c, rate, reports[0]), reports[1..])
  }

  // ---- one report

  lemma ScaleMonotone(p: nat, q: nat, k: nat, m: nat, d: nat)
    requires p <= q && k <= m && d > 0
    ensures p * k / d <= q * m / d
  {
    assert p * k <= q * k;
    assert q * k <= q * m;
    DivMonotone(p * k, q * m, d);
  }

  lemma DivMonotone(x: nat, y: nat, d: nat)
    requires x <= y && d > 0
    ensures x / d <= y / d
  {
    var qx, qy := x / d, y / d;
    assert d * qx <= x && y < d * qy + d;
    assert d * qx < d * (qy + 1);
  }

  /** A higher previous rate or a smaller loss never gives a lower rate, across all three
      branches of the update. */
  lemma UpdateMonotone(c: StreamConfig, p: nat, q: nat, lossP: FractionLost, lossQ: FractionLost)
    requires ValidConfig(c)
    requires p <= q && lossP >= lossQ
    ensures UpdatedRate(c, p, lossP) <= UpdatedRate(c, q, lossQ)
  {
    var kp := if lossP < 5 then 538 else if lossP > 25 then 512 - lossP else 512;
    var kq := if lossQ < 5 then 538 else if lossQ > 25 then 512 - lossQ else 512;
    assert p * 538 / 512 == p * 269 / 256 && q * 538 / 512 == q * 269 / 256;
    assert p * 512 / 512 == p && q * 512 / 512 == q;
    ScaleMonotone(p, q, kp, kq, 512);
  }

  /** Below the maximum, a low-loss report strictly raises the rate exactly from 20 bit/s
      on; a lower rate is stuck, since adding 5% rounds down to nothing. */
  lemma LowLossRisesIff(c: StreamConfig, rate: nat, loss: FractionLost)
    requires ValidConfig(c) && InRange(c, rate) && rate < c.maxBitrate && loss < 5
    ensures UpdatedRate(c, rate, loss) > rate <==> rate >= 20
    ensures rate < 20 ==> UpdatedRate(c, rate, loss) == rate
  {
  }

  lemma HighLossFalls(c: StreamConfig, rate: nat, loss: FractionLost)
    requires ValidConfig(c) && InRange(c, rate) && loss > 25
    ensures UpdatedRate(c, rate, loss) < rate || UpdatedRate(c, rate, loss) == c.minBitrate
  {
    assert rate * (512 - loss) < rate * 512;
  }

  /** Loss between 2% and 10% leaves the rate as it is. */
  lemma MidLossHolds(c: StreamConfig, rate: nat, loss: FractionLost)
    requires InRange(c, rate) && 5 <= loss <= 25
    ensures UpdatedRate(c, rate, loss) == rate
  {
  }

  /** A higher loss cuts the rate by half the loss, rounded down, but not below the minimum. */
  lemma HighLossCut(c: StreamConfig, rate: nat, loss: FractionLost)
    requires ValidConfig(c) && InRange(c, rate) && loss > 25
    ensures var r := UpdatedRate(c, rate, loss);
            if rate * (512 - loss) < 512 * c.minBitrate then r == c.minBitrate
            else 512 * r <= rate * (512 - loss) < 512 * (r + 1)
  {
    var product := rate * (512 - loss);
    assert product <= 512 * rate by { assert 512 - loss <= 512; }
    assert 512 * (product / 512) <= product < 512 * (product / 512 + 1);
  }

  /** A lower loss raises it by 13/256, rounded down, but not above the maximum. */
  lemma LowLossRise(c: StreamConfig, rate: nat, loss: FractionLost)
    requires ValidConfig(c) && InRange(c, rate) && loss < 5
    ensures var r := UpdatedRate(c, rate, loss);
            if rate * 269 >= 256 * (c.maxBitrate + 1) then r == c.maxBitrate
            else 256 * r <= rate * 269 < 256 * (r + 1)
  {
  }

  /** One report never cuts the rate below the smaller of its previous value and half of it
      (257/512, the factor of the worst loss), itself never below the minimum. */
  lemma OneReportFloor(c: StreamConfig, rate: nat, loss: FractionLost)
    requires ValidConfig(c) && InRange(c, rate)
    ensures var half := rate * 257 / 512;
            var floor := if half < c.minBitrate then c.minBitrate else half;
            UpdatedRate(c, rate, loss) >= (if rate < floor then rate else floor)
  {
    UpdateMonotone(c, rate, rate, 255, loss);
  }

  /** With the shipped limits no intermediate product leaves the signed 32-bit range. */
  lemma ShippedProductsFit32Bits(c: StreamConfig, rate: nat, loss: FractionLost)
    requires c == AUDIO_CONFIG || c == VIDEO_CONFIG
    requires InRange(c, rate)
    ensures rate * 269 < 0x8000_0000 && rate * (512 - loss) < 0x8000_0000
  {
    assert rate * (512 - loss) <= rate * 512;
  }

  // ---- runs of reports

  lemma {:induction false} RunStaysInRange(c: StreamConfig, rate: nat, reports: seq<FractionLost>)
    requires ValidConfig(c) && InRange(c, rate)
    ensures InRange(c, AfterReports(c, rate, reports))
    decreases |reports|
  {
    if reports == [] {
    } else {
      RunStaysInRange(c, UpdatedRate(c, rate, reports[0]), reports[1..]);
    }
  }

  /** Pointwise worse reports, from a rate that is no better, never end better. */
  lemma {:induction false} WorseRunEndsLower(
      c: StreamConfig, p: nat, q: nat, worse: seq<FractionLost>, better: seq<FractionLost>)
    requires ValidConfig(c) && p <= q && |worse| == |better|
    requires forall i :: 0 <= i < |worse| ==> worse[i] >= better[i]
    ensures AfterReports(c, p, worse) <= AfterReports(c, q, better)
    decreases |worse|
  {
    if worse == [] {
    } else {
      UpdateMonotone(c, p, q, worse[0], better[0]);
      WorseRunEndsLower(c, UpdatedRate(c, p, worse[0]), UpdatedRate(c, q, better[0]), worse[1..], better[1..]);
    }
  }

  lemma {:induction false} AfterReportsConcat(
      c: StreamConfig, rate: nat, before: seq<FractionLost>, after: seq<FractionLost>)
    ensures AfterReports(c, rate, before + after) == AfterReports(c, AfterReports(c, rate, before), after)
    decreases |before|
  {
    if before == [] {
      assert before + after == after;
    } else {
      assert (before + after)[1..] == before[1..] + after;
      AfterReportsConcat(c, UpdatedRate(c, rate, before[0]), before[1..], after);
    }
  }

  /** Reports of middling loss change nothing, however many, and wherever they stand among
      other reports. */
  lemma {:induction false} MidReportsPlayNoPart(
      c: StreamConfig, rate: nat, before: seq<FractionLost>, mid: seq<FractionLost>, after: seq<FractionLost>)
    requires ValidConfig(c) && InRange(c, rate)
    requires forall i :: 0 <= i < |mid| ==> 5 <= mid[i] <= 25
    ensures AfterReports(c, rate, before + mid + after) == AfterReports(c, rate, before + after)
    decreases |mid|
  {
    if mid == [] {
      assert before + mid == before;
    } else {
      var rest := mid[1..] + after;
      assert before + mid + after == before + ([mid[0]] + rest);
      assert before + rest == before + mid[1..] + after;
      RunStaysInRange(c, rate, before);
      MidLossHolds(c, AfterReports(c, rate, before), mid[0]);
      AfterReportsConcat(c, rate, before, [mid[0]] + rest);
      AfterReportsConcat(c, rate, before, rest);
      assert ([mid[0]] + rest)[1..] == rest;
      MidReportsPlayNoPart(c, rate, before, mid[1..], after);
    }
  }

  ghost predicate AllLow(reports: seq<FractionLost>) {
    forall i :: 0 <= i < |reports| ==> reports[i] < 5
  }

  /** Low loss drives the rate to the maximum, where it stays. */
  lemma {:induction false} LowLossReachesMax(c: StreamConfig, rate: nat, reports: seq<FractionLost>)
    requires ValidConfig(c) && c.minBitrate >= 20 && InRange(c, rate) && AllLow(reports)
    requires |reports| >= c.maxBitrate - rate
    ensures AfterReports(c, rate, reports) == c.maxBitrate
    decreases |reports|
  {
    if reports == [] {
    } else {
      var next := UpdatedRate(c, rate, reports[0]);
      if rate < c.maxBitrate {
        LowLossRisesIff(c, rate, reports[0]);
      }
      LowLossReachesMax(c, next, reports[1..]);
    }
  }

  lemma {:induction false} HighLossReachesMin(c: StreamConfig, rate: nat, reports: seq<FractionLost>)
    requires ValidConfig(c) && InRange(c, rate)
    requires forall i :: 0 <= i < |reports| ==> reports[i] > 25
    requires |reports| >= rate - c.minBitrate
    ensures AfterReports(c, rate, reports) == c.minBitrate
    decreases |reports|
  {
    if reports == [] {
    } else {
      HighLossFalls(c, rate, reports[0]);
      HighLossReachesMin(c, UpdatedRate(c, rate, reports[0]), reports[1..]);
    }
  }

  /** The video rate after n low-loss reports, as a function of numbers alone. */
  function VideoRise(rate: nat, n: nat): nat
    decreases n
  {
    if n == 0 then rate
    else VideoRise(if rate * 269 / 256 > 1800000 then 1800000 else rate * 269 / 256, n - 1)
  }

  lemma {:induction false} LowRunIsVideoRise(rate: nat, reports: seq<FractionLost>)
    requires InRange(VIDEO_CONFIG, rate) && AllLow(reports)
    ensures AfterReports(VIDEO_CONFIG, rate, reports) == VideoRise(rate, |reports|)
    decreases |reports|
  {
    if reports == [] {
    } else {
      LowRunIsVideoRise(UpdatedRate(VIDEO_CONFIG, rate, reports[0]), reports[1..]);
    }
  }

  lemma FiveRises(rate: nat, n: nat) returns (after: nat)
    requires n >= 5 && rate <= 1400000
    ensures VideoRise(rate, n) == VideoRise(after, n - 5)
    ensures rate * 1281 / 1000 - 6 <= after <= rate * 12811 / 10000
  {
    var r1 := rate * 269 / 256;
    var r2 := r1 * 269 / 256;
    var r3 := r2 * 269 / 256;
    var r4 := r3 * 269 / 256;
    after := r4 * 269 / 256;
    assert VideoRise(rate, n) == VideoRise(r1, n - 1);
    assert VideoRise(r1, n - 1) == VideoRise(r2, n - 2);
    assert VideoRise(r2, n - 2) == VideoRise(r3, n - 3);
    assert VideoRise(r3, n - 3) == VideoRise(r4, n - 4);
  }

  lemma FiftyRises(n: nat) returns (after: nat)
    requires n >= 50
    ensures VideoRise(150000, n) == VideoRise(after, n - 50)
    ensures 1780000 <= after < 1800000
  {
    after := FiveRises(150000, n);
    after := FiveRises(after, n - 5);
    after := FiveRises(after, n - 10);
    after := FiveRises(after, n - 15);
    after := FiveRises(after, n - 20);
    after := FiveRises(after, n - 25);
    after := FiveRises(after, n - 30);
    after := FiveRises(after, n - 35);
    after := FiveRises(after, n - 40);
    after := FiveRises(after, n - 45);
  }

  lemma {:induction false} VideoStaysAtMax(n: nat)
    ensures VideoRise(1800000, n) == 1800000
  {
    if n > 0 {
      VideoStaysAtMax(n - 1);
    }
  }

  /** With the shipped video limits, 51 low-loss reports reach the maximum from any rate,
      and from the minimum 50 never do. */
  lemma VideoNeeds51Reports(rate: nat, reports: seq<FractionLost>)
    requires InRange(VIDEO_CONFIG, rate) && AllLow(reports)
    ensures |reports| >= 51 ==> AfterReports(VIDEO_CONFIG, rate, reports) == 1800000
    ensures |reports| == 50 ==> AfterReports(VIDEO_CONFIG, 150000, reports) < 1800000
  {
    var n := |reports|;
    LowRunIsVideoRise(150000, reports);
    if n >= 50 {
      var after := FiftyRises(n);
      if n >= 51 {
        VideoStaysAtMax(n - 51);
        RunStaysInRange(VIDEO_CONFIG, rate, reports);
        WorseRunEndsLower(VIDEO_CONFIG, 150000, rate, reports, reports);
      }
    }
  }

  lemma {:induction false} AfterReportsSnoc(c: StreamConfig, rate: nat, reports: seq<FractionLost>, last: FractionLost)
    ensures AfterReports(c, rate, reports + [last]) == UpdatedRate(c, AfterReports(c, rate, reports), last)
    decreases |reports|
  {
    if reports == [] {
      assert reports + [last] == [last];
      assert [last][1..] == [];
    } else {
      assert (reports + [last])[1..] == reports[1..] + [last];
      AfterReportsSnoc(c, UpdatedRate(c, rate, reports[0]), reports[1..], last);
    }
  }

  /** One reception report block of an RTCP receiver report. */
  datatype Reception = Reception(ssrc: nat, fractionLost: FractionLost)

  /** The losses reported about one stream, in order. */
  function LossesOf(ssrc: nat, blocks: seq<Reception>): seq<FractionLost> {
    if blocks == [] then []
    else
      var last := blocks[|blocks| - 1];
      LossesOf(ssrc, blocks[..|blocks| - 1]) + if last.ssrc == ssrc then [last.fractionLost] else []
  }

  lemma LossesOfSnoc(ssrc: nat, blocks: seq<Reception>, i: nat)
    requires i < |blocks|
    ensures LossesOf(ssrc, blocks[..i + 1])
         == if blocks[i].ssrc == ssrc then LossesOf(ssrc, blocks[..i]) + [blocks[i].fractionLost]
            else LossesOf(ssrc, blocks[..i])
  {
    assert blocks[..i + 1][..i] == blocks[..i];
  }

  /** The rate after one more block. */
  lemma HeardNext(c: StreamConfig, rate: nat, ssrc: nat, blocks: seq<Reception>, i: nat)
    requires i < |blocks|
    ensures var heard := AfterReports(c, rate, LossesOf(ssrc, blocks[..i]));
            AfterReports(c, rate, LossesOf(ssrc, blocks[..i + 1]))
            == if blocks[i].ssrc == ssrc then UpdatedRate(c, heard, blocks[i].fractionLost) else heard
  {
    LossesOfSnoc(ssrc, blocks, i);
    if blocks[i].ssrc == ssrc {
      AfterReportsSnoc(c, rate, LossesOf(ssrc, blocks[..i]), blocks[i].fractionLost);
    }
  }

  /** The controller of one sender: of the track sent, to the user it is sent to. */
  class SenderController {
    const streamConfig: StreamConfig
    const trackId: string
    const toUserId: string
    const ssrc: nat
    var ccOptimalBitrate: nat
    var lossOptimalBitrate: nat
    ghost var reports: seq<FractionLost>

    ghost predicate Valid()
      reads this
    {
      ValidConfig(streamConfig)
      && InRange(streamConfig, lossOptimalBitrate)
      && (ccOptimalBitrate == 0 || InRange(streamConfig, ccOptimalBitrate))
      && lossOptimalBitrate == AfterReports(streamConfig, streamConfig.defaultBitrate, reports)
    }

    constructor (c: StreamConfig, trackId: string, toUserId: string, ssrc: nat)
      requires ValidConfig(c)
      ensures Valid() && streamConfig == c && reports == []
      ensures this.trackId == trackId && this.toUserId == toUserId && this.ssrc == ssrc
      ensures lossOptimalBitrate == c.defaultBitrate && ccOptimalBitrate == 0
    {
      streamConfig := c;
      this.trackId, this.toUserId, this.ssrc := trackId, toUserId, ssrc;
      ccOptimalBitrate, lossOptimalBitrate := 0, c.defaultBitrate;
      reports := [];
    }

    method UpdateRateFromLoss(loss: FractionLost)
      requires Valid()
      modifies this`lossOptimalBitrate, this`reports
      ensures Valid()
      ensures lossOptimalBitrate == UpdatedRate(streamConfig, old(lossOptimalBitrate), loss)
      ensures reports == old(reports) + [loss]
    {
      var newOptimalBitrate;
      var prevOptimalBitrate := lossOptimalBitrate;
      if loss < 5 {
        newOptimalBitrate := prevOptimalBitrate * 269 / 256;
      } else if loss > 25 {
        newOptimalBitrate := prevOptimalBitrate * (512 - loss) / 512;
      } else {
        newOptimalBitrate := prevOptimalBitrate;
      }
      lossOptimalBitrate := CapRate(streamConfig, newOptimalBitrate);
      AfterReportsSnoc(streamConfig, streamConfig.defaultBitrate, reports, loss);
      reports := reports + [loss];
    }

    /** One receiver report: only the blocks about this sender's stream count, each once, in
        order. */
    method ReceiverReport(blocks: seq<Reception>)
      requires Valid()
      modifies this`lossOptimalBitrate, this`reports
      ensures Valid()
      ensures reports == old(reports) + LossesOf(ssrc, blocks)
      ensures lossOptimalBitrate == AfterReports(streamConfig, old(lossOptimalBitrate), LossesOf(ssrc, blocks))
    {
      var i := 0;
      ghost var before := lossOptimalBitrate;
      while i < |blocks|
        invariant 0 <= i <= |blocks|
        invariant Valid()
        invariant reports == old(reports) + LossesOf(ssrc, blocks[..i])
        invariant lossOptimalBitrate == AfterReports(streamConfig, before, LossesOf(ssrc, blocks[..i]))
      {
        LossesOfSnoc(ssrc, blocks, i);
        HeardNext(streamConfig, before, ssrc, blocks, i);
        if blocks[i].ssrc == ssrc {
          UpdateRateFromLoss(blocks[i].fractionLost);
        }
        i := i + 1;
      }
      assert blocks[..i] == blocks;
    }

    /** The callback registered on the congestion-control estimator. */
    method OnTargetBitrateChange(bitrate: int)
      requires Valid()
      modifies this`ccOptimalBitrate
      ensures Valid()
      ensures ccOptimalBitrate == CapRate(streamConfig, bitrate)
    {
      ccOptimalBitrate := CapRate(streamConfig, bitrate);
    }

    function OptimalRate(gcc: bool): nat
      reads this
    {
      if gcc then ccOptimalBitrate else lossOptimalBitrate
    }
  }
}
