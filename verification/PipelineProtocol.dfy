/** The start/stop protocol of a peer's GStreamer pipeline (gst/pipeline.go). Calls into C
    are the events of a log. */
module PipelineProtocol {
  import opened Base

  datatype Kind = Audio | Video

  datatype GstEvent = GstStart | GstStop | Push(kind: Kind)

  /** `startedCh` counts how often the channel of that name was closed: a second close
      would panic. */
  datatype Pipe = Pipe(
    audioOnly: bool,
    audioOutput: bool,
    videoOutput: bool,
    startedCh: nat,
    stoppedCount: nat,
    log: seq<GstEvent>
  )

  function NewPipe(audioOnly: bool): Pipe {
    Pipe(audioOnly, false, false, 0, 0, [])
  }

  /** How many slices have to stop before the pipeline does. */
  function Buffers(p: Pipe): nat {
    if p.audioOnly then 1 else 2
  }

  function SetOutput(p: Pipe, kind: Kind): Pipe {
    if kind == Audio then p.(audioOutput := true) else p.(videoOutput := true)
  }

  predicate AllBound(p: Pipe) {
    p.audioOutput && (p.audioOnly || p.videoOutput)
  }

  function StartPipe(p: Pipe): Pipe {
    p.(startedCh := p.startedCh + 1, log := p.log + [GstStart])
  }

  function UpdateReady(p: Pipe, kind: Kind): Pipe {
    if p.audioOnly then (if kind == Audio then StartPipe(p) else p)
    else if p.audioOutput && p.videoOutput then StartPipe(p)
    else p
  }

  function BindTrackAutoStart(p: Pipe, kind: Kind): Pipe {
    UpdateReady(SetOutput(p, kind), kind)
  }

  function StopPipe(p: Pipe): Pipe {
    var stopped := p.(stoppedCount := p.stoppedCount + 1);
    if stopped.stoppedCount == Buffers(p) then stopped.(log := p.log + [GstStop]) else stopped
  }

  function PushRTP(p: Pipe, kind: Kind): Pipe {
    p.(log := p.log + [Push(kind)])
  }

  // ---- what a well-behaved log is

  datatype Stage = Idle | Playing | Stopped | Broken

  /** The stage a log ends in: one start, then pushes, then one stop; anything else is
      broken, for ever. */
  function StageOf(log: seq<GstEvent>): Stage {
    if log == [] then Idle
    else
      match (StageOf(log[..|log| - 1]), log[|log| - 1])
      case (Idle, GstStart) => Playing
      case (Playing, Push(_)) => Playing
      case (Playing, GstStop) => Stopped
      case (_, _) => Broken
  }

  function Starts(log: seq<GstEvent>): nat {
    Count(log, (e: GstEvent) => e == GstStart)
  }

  function Stops(log: seq<GstEvent>): nat {
    Count(log, (e: GstEvent) => e == GstStop)
  }

  ghost predicate OnlyPushes(log: seq<GstEvent>) {
    forall i :: 0 <= i < |log| ==> log[i].Push?
  }

  /** A log that is not broken is empty, or a start followed by pushes, or that followed
      by a stop as its last event. */
  lemma {:induction false} UnbrokenShape(log: seq<GstEvent>)
    ensures StageOf(log) == Idle <==> log == []
    ensures StageOf(log) == Playing <==> |log| >= 1 && log[0] == GstStart && OnlyPushes(log[1..])
    ensures StageOf(log) == Stopped <==>
            |log| >= 2 && log[0] == GstStart && log[|log| - 1] == GstStop && OnlyPushes(log[1..|log| - 1])
  {
    if log == [] {
    } else {
      var front := log[..|log| - 1];
      UnbrokenShape(front);
      if |front| >= 1 {
        assert front[1..] == log[1..|log| - 1];
        assert log[1..] == front[1..] + [log[|log| - 1]];
        assert log[1..][|front| - 1] == log[|log| - 1];
      }
    }
  }

  lemma StageOfSnoc(log: seq<GstEvent>, e: GstEvent)
    ensures StageOf(log + [e]) ==
            match (StageOf(log), e)
            case (Idle, GstStart) => Playing
            case (Playing, Push(_)) => Playing
            case (Playing, GstStop) => Stopped
            case (_, _) => Broken
  {
    assert (log + [e])[..|log + [e]| - 1] == log;
  }

  lemma CountsSnoc(log: seq<GstEvent>, e: GstEvent)
    ensures Starts(log + [e]) == Starts(log) + (if e == GstStart then 1 else 0)
    ensures Stops(log + [e]) == Stops(log) + (if e == GstStop then 1 else 0)
  {
    CountSnoc(log, e, (x: GstEvent) => x == GstStart);
    CountSnoc(log, e, (x: GstEvent) => x == GstStop);
  }

  // ---- the unguarded bind: two goroutines, two steps each

  /** A slice goroutine first sets its output, then checks whether both are there; nothing
      keeps the other goroutine out in between. */
  datatype BindStep = SetStep(kind: Kind) | CheckStep(kind: Kind)

  function DoBindStep(p: Pipe, step: BindStep): Pipe {
    match step
    case SetStep(k) => SetOutput(p, k)
    case CheckStep(k) => UpdateReady(p, k)
  }

  function DoBindSteps(p: Pipe, steps: seq<BindStep>): Pipe
    decreases |steps|
  {
    if steps == [] then p else DoBindSteps(DoBindStep(p, steps[0]), steps[1..])
  }

  /** Both goroutines ran to the end, each in its own order. */
  ghost predicate Interleaving(steps: seq<BindStep>) {
    |steps| == 4
    && (exists i, j :: 0 <= i < j < 4 && steps[i] == SetStep(Audio) && steps[j] == CheckStep(Audio))
    && (exists i, j :: 0 <= i < j < 4 && steps[i] == SetStep(Video) && steps[j] == CheckStep(Video))
  }

  lemma FourSteps(p: Pipe, steps: seq<BindStep>)
    requires |steps| == 4
    ensures DoBindSteps(p, steps)
         == DoBindStep(DoBindStep(DoBindStep(DoBindStep(p, steps[0]), steps[1]), steps[2]), steps[3])
  {
    var s1, s2, s3 := steps[1..], steps[2..], steps[3..];
    assert s1[0] == steps[1] && s1[1..] == s2;
    assert s2[0] == steps[2] && s2[1..] == s3;
    assert s3[0] == steps[3] && s3[1..] == [];
    var p1 := DoBindStep(p, steps[0]);
    var p2 := DoBindStep(p1, steps[1]);
    var p3 := DoBindStep(p2, steps[2]);
    assert DoBindSteps(p, steps) == DoBindSteps(p1, s1);
    assert DoBindSteps(p1, s1) == DoBindSteps(p2, s2);
    assert DoBindSteps(p2, s2) == DoBindSteps(p3, s3);
    assert DoBindSteps(p3, s3) == DoBindSteps(DoBindStep(p3, steps[3]), []);
  }

  /** The audio-and-video pipeline always starts; it starts twice, closing startedCh twice,
      exactly when both outputs are set before either goroutine checks. */
  lemma DoubleStartIff(steps: seq<BindStep>)
    requires Interleaving(steps)
    ensures DoBindSteps(NewPipe(false), steps).startedCh in {1, 2}
    ensures DoBindSteps(NewPipe(false), steps).startedCh == 2 <==> steps[0].SetStep? && steps[1].SetStep?
  {
    FourSteps(NewPipe(false), steps);
  }

  /** A run in which both goroutines see both outputs. */
  lemma DoubleStartHappens()
    ensures var steps := [SetStep(Audio), SetStep(Video), CheckStep(Audio), CheckStep(Video)];
            Interleaving(steps) && DoBindSteps(NewPipe(false), steps).startedCh == 2
  {
    var steps := [SetStep(Audio), SetStep(Video), CheckStep(Audio), CheckStep(Video)];
    assert steps[0] == SetStep(Audio) && steps[2] == CheckStep(Audio);
    assert steps[1] == SetStep(Video) && steps[3] == CheckStep(Video);
    DoubleStartIff(steps);
  }

  // ---- the class

  class Pipeline {
    const audioOnly: bool
    var audioOutput: bool
    var videoOutput: bool
    var startedCh: nat
    var stoppedCount: nat
    ghost var log: seq<GstEvent>

    ghost function Abs(): Pipe
      reads this
    {
      Pipe(audioOnly, audioOutput, videoOutput, startedCh, stoppedCount, log)
    }

    constructor (audioOnly: bool)
      ensures Abs() == NewPipe(audioOnly)
    {
      this.audioOnly := audioOnly;
      audioOutput, videoOutput := false, false;
      startedCh, stoppedCount := 0, 0;
      log := [];
    }

    method BindTrack(kind: Kind)
      modifies this
      ensures Abs() == BindTrackAutoStart(old(Abs()), kind)
    {
      if kind == Audio {
        audioOutput := true;
      } else {
        videoOutput := true;
      }
      CheckReady(kind);
    }

    method CheckReady(kind: Kind)
      modifies this
      ensures Abs() == UpdateReady(old(Abs()), kind)
    {
      if audioOnly {
        if kind == Audio {
          Start();
        }
      } else if audioOutput && videoOutput {
        Start();
      }
    }

    method Start()
      modifies this
      ensures Abs() == StartPipe(old(Abs()))
    {
      log := log + [GstStart];
      startedCh := startedCh + 1;
    }

    method Stop()
      modifies this
      ensures Abs() == StopPipe(old(Abs()))
    {
      var buffers := if audioOnly then 1 else 2;
      stoppedCount := stoppedCount + 1;
      if stoppedCount == buffers {
        log := log + [GstStop];
      }
    }

    method PushBuffer(kind: Kind)
      modifies this
      ensures Abs() == PushRTP(old(Abs()), kind)
    {
      log := log + [Push(kind)];
    }
  }
}
