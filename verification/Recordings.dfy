/** Where a pipeline records (gst/pipeline.go): the names of its files, and exactly when two
    connections to one interaction write to the same file. */
module Recordings {
  import opened Base
  import opened Payload
  import opened RoomSpec
  import opened RoomSystem

  /** What stands in every name made for one interaction before the timestamp, and between
      the timestamp and the user. */
  datatype Place = Place(dataFolder: string, randomId: string, space: string, interactionName: string)

  /** The options of a connection that decide which files it records. */
  datatype Options = Options(
    audioOnly: bool,
    recordingMode: string,
    audioFx: string,
    videoFx: string,
    audioExtension: string,
    videoExtension: string
  )

  /** Effects are asked for by their text. */
  predicate HasWetFiles(o: Options) {
    |o.audioFx| > 0 || |o.videoFx| > 0
  }

  /** One connection of a user, with the count of joins it was given and the time at which
      its pipeline started. */
  datatype Connection = Connection(userId: UserId, count: nat, startedAt: string, options: Options)

  datatype Media = Muxed | AudioFile | VideoFile

  const MUXED_MODES := ["forced", "free", "reenc"]

  /** Length of a time in the layout 20060102-150405.000. */
  const TIME_LENGTH: nat := 19

  function Digit(d: nat): char
    requires d < 10
  {
    '0' + d as char
  }

  function Decimal(n: nat): string {
    if n < 10 then [Digit(n)] else Decimal(n / 10) + [Digit(n % 10)]
  }

  /** The place and time a name begins with; all names of one place have it equally long. */
  function Head(place: Place, startedAt: string): string {
    place.dataFolder + "/recordings/i-" + place.randomId + "-a-" + startedAt
    + "-s-" + place.space + "-n-" + place.interactionName + "-u-"
  }

  function FilePrefix(place: Place, c: Connection): string {
    Head(place, c.startedAt) + c.userId + "-c-" + Decimal(c.count)
  }

  function MediaLabel(media: Media): string {
    match media
    case Muxed => ""
    case AudioFile => "-audio"
    case VideoFile => "-video"
  }

  function RecordingFile(place: Place, c: Connection, media: Media, wet: bool, extension: string): string {
    FilePrefix(place, c) + MediaLabel(media) + "-" + (if wet then "wet" else "dry") + "." + extension
  }

  /** The files of a connection, in the order in which they are set up. */
  function RecordingFiles(place: Place, c: Connection): seq<string> {
    var o := c.options;
    if o.audioOnly then
      [RecordingFile(place, c, AudioFile, false, o.audioExtension)]
      + if HasWetFiles(o) then [RecordingFile(place, c, AudioFile, true, o.audioExtension)] else []
    else if o.recordingMode in MUXED_MODES then
      [RecordingFile(place, c, Muxed, false, o.videoExtension)]
      + if HasWetFiles(o) then [RecordingFile(place, c, Muxed, true, o.videoExtension)] else []
    else if o.recordingMode == "split" then
      [RecordingFile(place, c, AudioFile, false, o.audioExtension),
       RecordingFile(place, c, VideoFile, false, o.videoExtension)]
      + if HasWetFiles(o) then
          [RecordingFile(place, c, AudioFile, true, o.audioExtension),
           RecordingFile(place, c, VideoFile, true, o.videoExtension)]
        else []
    else []
  }

  lemma HeadReads()
    ensures Head(Place("d", "r", "s", "n"), "t") == "d/recordings/i-r-a-t-s-s-n-n-u-"
  {
  }

  lemma PrefixReads(options: Options)
    ensures FilePrefix(Place("d", "r", "s", "n"), Connection("u", 12, "t", options))
         == "d/recordings/i-r-a-t-s-s-n-n-u-u-c-12"
  {
    HeadReads();
    assert Decimal(1) == "1" && Decimal(12) == "12";
  }

  /** A name as it is written: the wet audio of the twelfth connection of a user. */
  lemma NameReads(options: Options)
    ensures RecordingFile(Place("d", "r", "s", "n"), Connection("u", 12, "t", options), AudioFile, true, "ogg")
         == "d/recordings/i-r-a-t-s-s-n-n-u-u-c-12-audio-wet.ogg"
  {
    PrefixReads(options);
  }

  // ---- reading a name back

  ghost predicate AllDigits(s: string) {
    forall i :: 0 <= i < |s| ==> '0' <= s[i] <= '9'
  }

  lemma {:induction false} DecimalDigits(n: nat)
    ensures |Decimal(n)| > 0 && AllDigits(Decimal(n))
  {
    if n >= 10 {
      DecimalDigits(n / 10);
    }
  }

  lemma {:induction false} DecimalInjective(m: nat, n: nat)
    requires Decimal(m) == Decimal(n)
    ensures m == n
    decreases m
  {
    var s, t := Decimal(m), Decimal(n);
    assert s[|s| - 1] == Digit(m % 10) && t[|t| - 1] == Digit(n % 10);
    if m >= 10 || n >= 10 {
      DecimalDigits(m / 10);
      DecimalDigits(n / 10);
      assert |s| > 1 && |t| > 1;
      assert s[..|s| - 1] == Decimal(m / 10) && t[..|t| - 1] == Decimal(n / 10);
      DecimalInjective(m / 10, n / 10);
    }
  }

  /** A string is cut in one way at the last place where a character stands. */
  lemma LastCut(c: char, a: string, b: string, a': string, b': string)
    requires a + [c] + b == a' + [c] + b' && c !in b && c !in b'
    ensures a == a' && b == b'
  {
    var s := a + [c] + b;
    assert s[|a|] == c && s[|a'|] == c;
    forall i | |a| < i < |s| ensures s[i] != c {
      assert s[i] == b[i - |a| - 1];
    }
    forall i | |a'| < i < |s| ensures s[i] != c {
      assert s[i] == b'[i - |a'| - 1];
    }
    assert a == s[..|a|] && a' == s[..|a'|];
    assert b == s[|a| + 1..] && b' == s[|a'| + 1..];
  }

  /** The part of a name that tells user, count and media. */
  function Who(user: UserId, count: nat, media: Media): string {
    user + "-c-" + Decimal(count) + MediaLabel(media)
  }

  /** What stands before and after the last '-' of that part. */
  function WhoFront(user: UserId, count: nat, media: Media): string {
    if media == Muxed then user + "-c" else user + "-c-" + Decimal(count)
  }

  function WhoBack(count: nat, media: Media): string {
    match media
    case Muxed => Decimal(count)
    case AudioFile => "audio"
    case VideoFile => "video"
  }

  lemma WhoParts(user: UserId, count: nat, media: Media)
    ensures Who(user, count, media) == WhoFront(user, count, media) + ['-'] + WhoBack(count, media)
    ensures '-' !in WhoBack(count, media)
    ensures media == Muxed <==> '0' <= WhoBack(count, media)[0] <= '9'
  {
    DecimalDigits(count);
    match media
    case Muxed => WhoMuxed(user, Decimal(count));
    case AudioFile => assert "-audio" == ['-'] + "audio";
    case VideoFile => assert "-video" == ['-'] + "video";
  }

  lemma WhoMuxed(user: UserId, digits: string)
    ensures user + "-c-" + digits + "" == user + "-c" + ['-'] + digits
  {
    assert "-c-" == "-c" + ['-'];
  }

  lemma WhoInjective(u: UserId, m: nat, media: Media, w: UserId, n: nat, other: Media)
    requires Who(u, m, media) == Who(w, n, other)
    ensures u == w && m == n && media == other
  {
    WhoParts(u, m, media);
    WhoParts(w, n, other);
    LastCut('-', WhoFront(u, m, media), WhoBack(m, media), WhoFront(w, n, other), WhoBack(n, other));
    assert media == other by {
      assert media == Muxed <==> other == Muxed;
      assert "audio"[0] != "video"[0];
    }
    DecimalDigits(m);
    DecimalDigits(n);
    if media == Muxed {
      SameUser(u, w);
    } else {
      assert WhoFront(u, m, media) == (u + "-c") + ['-'] + Decimal(m);
      assert WhoFront(w, n, other) == (w + "-c") + ['-'] + Decimal(n);
      LastCut('-', u + "-c", Decimal(m), w + "-c", Decimal(n));
      SameUser(u, w);
    }
    DecimalInjective(m, n);
  }

  lemma SameUser(u: UserId, w: UserId)
    requires u + "-c" == w + "-c"
    ensures u == w
  {
    assert u == (u + "-c")[..|u + "-c"| - 2] && w == (w + "-c")[..|w + "-c"| - 2];
  }

  function Word(wet: bool): string {
    if wet then "wet" else "dry"
  }

  lemma FileParts(place: Place, c: Connection, media: Media, wet: bool, extension: string)
    ensures RecordingFile(place, c, media, wet, extension)
         == Head(place, c.startedAt) + (Who(c.userId, c.count, media) + ['-'] + Word(wet) + ['.'] + extension)
  {
  }

  /** Two names are equal exactly if user, count of joins, start time, media, dry or wet and
      extension all are. */
  lemma FileInjective(place: Place, c: Connection, media: Media, wet: bool, ext: string,
                      d: Connection, other: Media, wetOther: bool, extOther: string)
    requires |c.startedAt| == |d.startedAt| == TIME_LENGTH && '.' !in ext && '.' !in extOther
    ensures RecordingFile(place, c, media, wet, ext) == RecordingFile(place, d, other, wetOther, extOther)
       <==> c.userId == d.userId && c.count == d.count && c.startedAt == d.startedAt
            && media == other && wet == wetOther && ext == extOther
  {
    if RecordingFile(place, c, media, wet, ext) == RecordingFile(place, d, other, wetOther, extOther) {
      FileTells(place, c, media, wet, ext, d, other, wetOther, extOther);
    }
  }

  lemma FileTells(place: Place, c: Connection, media: Media, wet: bool, ext: string,
                  d: Connection, other: Media, wetOther: bool, extOther: string)
    requires |c.startedAt| == |d.startedAt| == TIME_LENGTH && '.' !in ext && '.' !in extOther
    requires RecordingFile(place, c, media, wet, ext) == RecordingFile(place, d, other, wetOther, extOther)
    ensures c.userId == d.userId && c.count == d.count && c.startedAt == d.startedAt
            && media == other && wet == wetOther && ext == extOther
  {
    FileParts(place, c, media, wet, ext);
    FileParts(place, d, other, wetOther, extOther);
    var w, x := Who(c.userId, c.count, media), Who(d.userId, d.count, other);
    var s, t := w + ['-'] + Word(wet), x + ['-'] + Word(wetOther);
    SameCut(Head(place, c.startedAt), s + ['.'] + ext, Head(place, d.startedAt), t + ['.'] + extOther);
    HeadTellsTime(place, c.startedAt, d.startedAt);
    LastCut('.', s, ext, t, extOther);
    LastCut('-', w, Word(wet), x, Word(wetOther));
    assert "wet"[0] != "dry"[0];
    WhoInjective(c.userId, c.count, media, d.userId, d.count, other);
  }

  lemma SameCut(a: string, b: string, a': string, b': string)
    requires a + b == a' + b' && |a| == |a'|
    ensures a == a' && b == b'
  {
    assert a == (a + b)[..|a|] && a' == (a' + b')[..|a'|];
    assert b == (a + b)[|a|..] && b' == (a' + b')[|a'|..];
  }

  lemma HeadTellsTime(place: Place, time: string, other: string)
    requires |time| == |other| && Head(place, time) == Head(place, other)
    ensures time == other
  {
    var front := place.dataFolder + "/recordings/i-" + place.randomId + "-a-";
    var back := "-s-" + place.space + "-n-" + place.interactionName + "-u-";
    HeadParts(place, time);
    HeadParts(place, other);
    SameCut(front, time + back, front, other + back);
    SameCut(time, back, other, back);
  }

  lemma HeadParts(place: Place, time: string)
    ensures Head(place, time)
         == (place.dataFolder + "/recordings/i-" + place.randomId + "-a-")
            + (time + ("-s-" + place.space + "-n-" + place.interactionName + "-u-"))
  {
  }

  // ---- when two files bear the same name

  ghost predicate GoodConnection(c: Connection) {
    |c.startedAt| == TIME_LENGTH && '.' !in c.options.audioExtension && '.' !in c.options.videoExtension
  }

  predicate RecordsSplit(o: Options) {
    !o.audioOnly && o.recordingMode !in MUXED_MODES && o.recordingMode == "split"
  }

  /** What the name of a connection's k-th file says apart from user, count and time. */
  datatype Part = Part(media: Media, wet: bool, extension: string)

  function PartOf(o: Options, k: nat): Part {
    var media := if !RecordsSplit(o) then (if o.audioOnly then AudioFile else Muxed)
                 else if k % 2 == 0 then AudioFile else VideoFile;
    Part(media, if RecordsSplit(o) then k >= 2 else k == 1,
         if media == AudioFile then o.audioExtension else o.videoExtension)
  }

  lemma FileOf(place: Place, c: Connection, k: nat)
    requires k < |RecordingFiles(place, c)|
    ensures var part := PartOf(c.options, k);
            RecordingFiles(place, c)[k] == RecordingFile(place, c, part.media, part.wet, part.extension)
  {
  }

  /** Files of two connections to one interaction share a name exactly if users, counts of
      joins, start times and the parts played in their connections agree, and those of one
      connection are all different. */
  lemma FilesApart(place: Place, c: Connection, d: Connection, j: nat, k: nat)
    requires GoodConnection(c) && GoodConnection(d)
    requires j < |RecordingFiles(place, c)| && k < |RecordingFiles(place, d)|
    ensures RecordingFiles(place, c)[j] == RecordingFiles(place, d)[k]
       <==> c.userId == d.userId && c.count == d.count && c.startedAt == d.startedAt
            && PartOf(c.options, j) == PartOf(d.options, k)
    ensures c == d && PartOf(c.options, j) == PartOf(d.options, k) ==> j == k
  {
    FileOf(place, c, j);
    FileOf(place, d, k);
    var p, q := PartOf(c.options, j), PartOf(d.options, k);
    FileInjective(place, c, p.media, p.wet, p.extension, d, q.media, q.wet, q.extension);
  }

  /** Which parts a connection records: an audio-only one its audio; another one both in one
      file or each in its own, as its recording mode says; wet ones only with effects. */
  predicate Recorded(o: Options, media: Media, wet: bool) {
    (wet ==> o.audioFx != "" || o.videoFx != "")
    && match media
       case Muxed => !o.audioOnly && o.recordingMode in {"forced", "free", "reenc"}
       case AudioFile => o.audioOnly || o.recordingMode == "split"
       case VideoFile => !o.audioOnly && o.recordingMode == "split"
  }

  function ExtensionOf(o: Options, media: Media): string {
    if media == AudioFile then o.audioExtension else o.videoExtension
  }

  /** Where a part stands among the files. */
  function PlaceOf(o: Options, media: Media, wet: bool): nat {
    if RecordsSplit(o) then (if media == VideoFile then 1 else 0) + (if wet then 2 else 0)
    else if wet then 1 else 0
  }

  lemma PartRecorded(place: Place, c: Connection, k: nat)
    requires k < |RecordingFiles(place, c)|
    ensures var part := PartOf(c.options, k);
            Recorded(c.options, part.media, part.wet) && part.extension == ExtensionOf(c.options, part.media)
  {
  }

  lemma RecordedPart(place: Place, c: Connection, media: Media, wet: bool)
    requires Recorded(c.options, media, wet)
    ensures var k := PlaceOf(c.options, media, wet);
            k < |RecordingFiles(place, c)|
            && PartOf(c.options, k) == Part(media, wet, ExtensionOf(c.options, media))
  {
  }

  /** A file is among those of a connection exactly if its part is one the connection records,
      with the extension of its media. */
  lemma FileRecordedIff(place: Place, c: Connection, media: Media, wet: bool, extension: string)
    requires GoodConnection(c) && '.' !in extension
    ensures RecordingFile(place, c, media, wet, extension) in RecordingFiles(place, c)
       <==> Recorded(c.options, media, wet) && extension == ExtensionOf(c.options, media)
  {
    var files, file := RecordingFiles(place, c), RecordingFile(place, c, media, wet, extension);
    if file in files {
      var k :| 0 <= k < |files| && files[k] == file;
      var p := PartOf(c.options, k);
      FileOf(place, c, k);
      PartRecorded(place, c, k);
      FileInjective(place, c, p.media, p.wet, p.extension, c, media, wet, extension);
    }
    if Recorded(c.options, media, wet) && extension == ExtensionOf(c.options, media) {
      RecordedPart(place, c, media, wet);
      FileOf(place, c, PlaceOf(c.options, media, wet));
    }
  }

  // ---- counts of joins along a run

  /** The step is a join of the user that is accepted. */
  predicate JoinsBy(r: Room, step: Step, u: UserId) {
    step.JoinUser? && step.user == u && Join(r, u).1 in {Reconnection, ExistingInteraction}
  }

  ghost predicate AcceptedJoin(states: seq<Sys>, steps: seq<Step>, n: nat, u: UserId) {
    n < |steps| && n < |states| && JoinsBy(states[n].room, steps[n], u)
  }

  lemma JoinCounts(r: Room, w: UserId, u: UserId)
    requires Members(r)
    ensures JoinedCount(Join(r, w).0, u)
         == JoinedCount(r, u) + if u == w && Join(r, w).1 in {Reconnection, ExistingInteraction} then 1 else 0
  {
  }

  lemma TimerCounts(r: Room, step: Step)
    ensures TimerNext(r, step).joinedCountIndex == r.joinedCountIndex
  {
  }

  lemma DisconnectCounts(r: Room, w: UserId)
    ensures DisconnectUser(r, w).joinedCountIndex == r.joinedCountIndex
  {
  }

  lemma AdvanceCounts(r: Room, pc: Pc)
    ensures RoomAfter(r, pc).joinedCountIndex == r.joinedCountIndex
  {
    match pc
    case InCount =>
    case StartCall =>
    case _ =>
  }

  lemma OtherStepCounts(s: Sys, step: Step)
    requires Enabled(s, step) && !step.JoinUser?
    ensures Next(s, step).room.joinedCountIndex == s.room.joinedCountIndex
  {
    match step
    case Disconnect(p) => DisconnectCounts(s.room, s.peers[p].userId);
    case Advance(k, _) => AdvanceCounts(s.room, s.slices[k].pc);
    case NewPeer(_, _) =>
    case TrackArrives(_, _, _) =>
    case Read(_) =>
    case Watch(_, _) =>
    case Close(_) =>
    case _ => TimerCounts(s.room, step);
  }

  lemma FollowsCounts(s: Sys, step: Step, t: Sys, u: UserId)
    requires Members(s.room) && Follows(s, step, t)
    ensures JoinedCount(t.room, u)
         == JoinedCount(s.room, u)
            + if JoinsBy(s.room, step, u) then 1 else 0
  {
    if step.JoinUser? {
      JoinCounts(s.room, step.user, u);
    } else {
      OtherStepCounts(s, step);
    }
  }

  lemma NextCount(states: seq<Sys>, steps: seq<Step>, n: nat, u: UserId)
    requires Run(states, steps) && n < |steps|
    ensures JoinedCount(states[n + 1].room, u)
         == JoinedCount(states[n].room, u) + if AcceptedJoin(states, steps, n, u) then 1 else 0
  {
    ReachableInv(states, steps, n);
    FollowsCounts(states[n], steps[n], states[n + 1], u);
  }

  lemma {:induction false} CountsBetween(
      states: seq<Sys>, steps: seq<Step>, joins: seq<bool>, n: nat, m: nat, u: UserId)
    requires n <= m < |states| && |joins| == |states| - 1
    requires forall k :: 0 <= k < |joins| ==>
               JoinedCount(states[k + 1].room, u) == JoinedCount(states[k].room, u) + if joins[k] then 1 else 0
    ensures JoinedCount(states[n].room, u) <= JoinedCount(states[m].room, u)
    ensures JoinedCount(states[n].room, u) == JoinedCount(states[m].room, u)
       <==> forall k :: n <= k < m ==> !joins[k]
    decreases m
  {
    if n < m {
      CountsBetween(states, steps, joins, n, m - 1, u);
    }
  }

  /** A user has the same count of joins in two states of a run exactly if no join of hers is
      accepted in between. */
  lemma {:induction false} SameCountIff(states: seq<Sys>, steps: seq<Step>, n: nat, m: nat, u: UserId)
    requires Run(states, steps) && n <= m < |states|
    ensures JoinedCount(states[n].room, u) == JoinedCount(states[m].room, u)
       <==> forall k :: n <= k < m ==> !AcceptedJoin(states, steps, k, u)
  {
    var joins := seq(|steps|, k requires 0 <= k < |steps| => JoinsBy(states[k].room, steps[k], u));
    forall k | 0 <= k < |joins|
      ensures JoinedCount(states[k + 1].room, u) == JoinedCount(states[k].room, u) + if joins[k] then 1 else 0
      ensures joins[k] == AcceptedJoin(states, steps, k, u)
    {
      NextCount(states, steps, k, u);
    }
    CountsBetween(states, steps, joins, n, m, u);
  }

  /** A count is read when the peer server is made. Over every run of an interaction, files of
      two peer servers bear the same name exactly if both are of one user, none of whose joins
      was accepted between the making of the two, their pipelines started in the same
      millisecond, and the files play the same part. */
  lemma {:induction false} RecordingsCollideIff(
      states: seq<Sys>, steps: seq<Step>, n: nat, m: nat, place: Place, c: Connection, d: Connection, j: nat, k: nat)
    requires Run(states, steps) && n < m < |steps|
    requires steps[n].NewPeer? && steps[n].user == c.userId && c.count == JoinedCount(states[n].room, c.userId)
    requires steps[m].NewPeer? && steps[m].user == d.userId && d.count == JoinedCount(states[m].room, d.userId)
    requires GoodConnection(c) && GoodConnection(d)
    requires j < |RecordingFiles(place, c)| && k < |RecordingFiles(place, d)|
    ensures RecordingFiles(place, c)[j] == RecordingFiles(place, d)[k]
       <==> c.userId == d.userId && c.startedAt == d.startedAt
            && PartOf(c.options, j) == PartOf(d.options, k)
            && forall q :: n <= q < m ==> !AcceptedJoin(states, steps, q, c.userId)
  {
    FilesApart(place, c, d, j, k);
    SameCountIff(states, steps, n, m, c.userId);
  }
}
