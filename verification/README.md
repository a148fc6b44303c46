# A verified model of DuckSoup's interactions and SFU control plane

DuckSoup runs fixed-size rooms ("interactions"): users join, leave and reconnect, their media
tracks arrive on goroutines of their own, the room gets ready, starts, and ends by timer or
is aborted, and then leaves a store shared by all rooms. This project models that control
plane in Dafny and proves what the code is meant to guarantee about it. `dafny verify
dfyconfig.toml` checks everything.

The model has two layers over one set of specification functions.

*Specifications and classes.* Each method that Go runs under a mutex is a function from state
to state, and a method of a class that changes its fields in place and is proved equal to
that function. What the environment answers (a failed `RemoveTrack`, the order in which a Go
map is walked, a failed `AddTrack`) is a parameter, so every statement holds for every answer.

| file | content | source |
|---|---|---|
| `Base.dfy` | counting and summing over sequences | |
| `Payload.dfy` | sanitising, join payloads, interaction ids | sfu/ws_conn.go, sfu/interaction.go |
| `RateControl.dfy` | loss-based rate of one sender, class `SenderController` | sfu/sender_controller.go |
| `Interpolation.dfy` | tick loop over reals, class `LinearInterpolator` | sequencing/linear_interpolator.go |
| `PipelineProtocol.dfy` | bind, start, push, stop, class `Pipeline` | gst/pipeline.go |
| `Recordings.dfy` | names of recorded files | gst/pipeline.go |
| `Tracks.dfy` | reconciliation of one peer connection | sfu/peer_server.go |
| `Overlaps.dfy` | two updates of one peer connection running into each other, the index fixed | sfu/peer_server.go |
| `Passes.dfy` | the loop of a signaling pass over all peers | sfu/mixer.go |
| `Mixing.dfy` | classes `MixerSlice`, `Mixer`, `PeerServer` | sfu/mixer_slice.go, sfu/mixer.go, sfu/peer_server.go |
| `RoomSpec.dfy` | one interaction and its invariant | sfu/interaction.go |
| `Interactions.dfy` | classes `Interaction`, `InteractionStore` | sfu/interaction.go, sfu/interaction_store.go |

*Transition systems.* The goroutines are small program counters whose actions apply the
specification functions in every order.

| file | content |
|---|---|
| `RoomSystem.dfy` | one interaction with its slice goroutines, countdowns, peer servers, watchers and pipelines; its inductive invariant |
| `Lifecycle.dfy` | what follows over whole runs: one-shot channels, counters, pipelines, deletion, teardown |
| `SignalingSystem.dfy` | passes visiting peer by peer while offers, answers, reports and encoder ticks interleave |
| `Offers.dfy` | offers and answers over runs of signaling, told from the steps |
| `Rates.dfy` | what the encoder's target and the controllers' rates are made of, over runs |
| `InitialUpdate.dfy` | the step-by-step initial update, left alone, against the whole one |
| `Joint.dfy` | both systems at once, on the same mixer and the same peers |
| `Coverage.dfy` | which tracks the passes asked for reach |
| `World.dfy` | the store with all interactions ever made |
| `Runs.dfy`, `JointRuns.dfy` | concrete runs to the places listed below, of one interaction and of both layers |

A Go channel that is only ever closed is a number, the times it was closed, so that "closed
twice" is a state that can be written down and shown unreachable.

## Where the code does less than it says

The following are results about the code as it is, each with the exact condition or with a
run that shows it.

- sfu/peer_server.go:69-75: a new peer server is in the index of peer servers when it makes
  its initial update, with no lock held. A pass may visit it at the same time, and both add
  the same track. `SignalingSystem.DoubleSendIff` is the exact guard, step by step, and
  `SignalingSystem.EverTwiceIff` over runs: a connection has ever sent a track twice exactly
  if its initial update has ever added a track that was already sent; which happens, for an
  indexed track, exactly if a pass added it after the update had collected what was sent
  (`SignalingSystem.AddsAgainIff`). `JointRuns.DoubleSendHappens` is a run. `Overlaps` looks
  at two updates of one connection alone, symmetric and with every interleaving of their
  steps, over an index that does not change: `Overlaps.SentTwiceIff`, `Overlaps.SentOnceIff`.
  The unlocked walk over `sliceIndex` may also meet a concurrent write, which Go's runtime
  may answer by ending the process; that is not modelled.
- For the same reason a pass may return true while a peer is sent a track already gone: her
  initial update took it in hand, it was removed, the pass visited her, and only then was it
  added. `SignalingSystem.SuccessfulPass` has the exact condition, `JointRuns.GoneTrackCanBeSent`
  is a run. No track she should be sent is ever missing after a pass that returned true.
- sfu/interaction.go:371-381 asks for a pass when the count of out-tracks is the number
  needed or even. A track counted out at an odd count asks for none, and if no other one
  follows, those already there may never be sent it: `Coverage.LiveTracksAreGiven` and
  `Coverage.UnaskedIff` say which tracks the passes asked for reach,
  `Coverage.LastCountDecides` on what it depends,
  `JointRuns.TrackCanGoUnasked` is a run in which a user comes back while her old slice is
  still counted.
- README.md:516-518 promises that mixer slices are released once the interaction is done.
  `Lifecycle.TeardownComplete` says which ones are not: those that could be created and whose
  pipeline never started, or that gave up waiting. `Runs.EndedRoomKeepsSlices` shows both
  kinds.
- sfu/interaction.go:448-453, sfu/interaction.go:500-509: when a room is deleted as empty,
  nothing tells its waiting slices. `Lifecycle.WaitingForeverIff` is the exact condition,
  `Runs.WaitingSliceCanBeForgotten` a run.
- sfu/interaction.go:306-315: `abortCountdown` does not release its read lock when it finds
  the room ready. `RoomSpec.AbortLookIff` says when that happens (the timer fired before
  readiness stopped it), `Runs.LockLeakHappens` gives a run. From then on no method that
  needs the write lock returns: `Lifecycle.LeakedLockFreezes`.
- A room that became ready but never started is not deleted by any timer, and not when its
  last user leaves (sfu/interaction.go:450): `Lifecycle.TimersDeleteIff` is the exact
  condition, `Runs.EmptyRoomCanLinger` a run.
- sfu/interaction.go:443-446 asks for signaling only when the room is already deleted, for
  which a pass does nothing (sfu/mixer.go:76). The others therefore keep a sender for each
  track of a departed user until the next pass, which is why exactness is stated at the end
  of a pass.
- sfu/interaction.go:425-432: disconnecting is keyed by the user alone, so closing an old
  peer server again drops the newer one: `Lifecycle.StaleDisconnectIff` is the exact
  condition over runs, `Runs.StaleCloseHappens` a run.
- gst/pipeline.go:184-201 sets an output and checks both without a lock; two goroutines may
  both start the pipeline: `PipelineProtocol.DoubleStartIff`.
- sfu/peer_conn.go:81-88 prepares for video on every connection, audio-only ones included. A
  pipeline that is audio-only and gets a video slice all the same stops with the first of
  its two slices and may be pushed to after that: `Lifecycle.BreaksIff`,
  `Runs.PushAfterStopHappens`.
- sequencing/linear_interpolator.go:23: stopping a ticker leaves a tick it holds back (with
  the Go version of go.mod), and the loop takes it. If the ticker fires while the final value
  waits to be taken, the goroutine sends on its closed channel and panics; otherwise it waits
  for ever: `Interpolation.LinearInterpolator.Run` states the condition,
  `Interpolation.PanicHappens` an input.
- sfu/peer_server.go:52 reads the count of joins only when the peer server is made; two of a
  user's connections may read the same one (`Runs.SharedCountHappens`), exactly if no join of
  hers is accepted in between (`Recordings.SameCountIff`). Only their start times, in
  milliseconds, then keep the files apart (`Recordings.RecordingsCollideIff`).
- sfu/ws_conn.go:67-69 cuts a string of more than 50 characters to 49.
- Controllers of users who left stay in a slice's index and go on bounding its encoder
  (sfu/mixer_slice.go:347-351); `SignalingSystem.EncoderTickSafe` is about all controllers
  of the index, theirs included.
- With a rate below 20 bit/s the loss-based rate could never rise again
  (`RateControl.LowLossRisesIff`); the shipped minimum is far above.

## Assumptions of the transition systems

- A peer connection brings at most one track of each kind, and track ids are never reused
  within an interaction.
- In `RoomSystem` binding an output and checking for readiness is one step; the race between
  the two is the subject of `PipelineProtocol.DoubleStartIff`.
- The deleted flag is checked and set in one step, also by `stop`, which holds no lock. The
  erasure from the store is a step of its own in `World`.
- A mutex-held method is one step. Steps that need a lock held by someone else are not
  enabled; so a running pass keeps out indexing, removing, connecting and disconnecting.
- The visit of one peer by a pass is one step. What may run into it on the same connection is
  its initial update, which holds no lock and is modelled step by step; `Overlaps` has both
  updates step by step.
- The initial update may begin for every peer server, or never: sfu/peer_server.go:69 makes
  it only when all users are connected, and shares a bare offer otherwise.
- `RoomSystem.NewPeer` is one step although sfu/interaction.go:466 (the count of joins is
  read) and sfu/interaction.go:391 (the peer server is connected) are two critical sections.
- A goroutine launched to make a pass makes it at any later time (`Joint.Both.asked`); the
  wait of 100 ms before it is launched is part of that.
- `shareOffer`, which holds no lock either, is one step wherever it is called from; so is one
  turn of the loop over the tracks in adding a track and giving it a controller.
- There is no clock: a timer may fire at any time after it was armed.
- The environment (`Tracks.Env`) may answer anything, but a walk over a Go map meets each key
  at most once, and one under the mixer lock each key exactly once.

## Model

| member | source | states |
|---|---|---|
| `Payload.StripKeepsAllowed` | sfu/ws_conn.go:64-66 | after sanitising only letters, digits, `-` and `_` are left; a string is left alone exactly when it holds nothing else |
| `Payload.KeptCharacters` | sfu/ws_conn.go:65 | the characters kept, by their codes: digits, letters, `-` and `_` of ASCII alone |
| `Payload.StripConcat` | sfu/ws_conn.go:64-66 | sanitising keeps or drops each character on its own and in order: it distributes over concatenation |
| `Payload.ParseStringFixpoints` | sfu/ws_conn.go:64-71 | a string survives unchanged exactly when it is clean and at most 50 long; every result is such a string, so sanitising is idempotent |
| `Payload.ParseStringCut` | sfu/ws_conn.go:64-71 | the result is a prefix of the kept characters: all of them up to fifty, the first forty-nine of more |
| `Payload.ReadJoinAnswers` | sfu/ws_conn.go:147-170 | of the payload decoded: accepted exactly when name and user each hold a character that is kept; a missing name is reported before a missing user; namespace, name and user of an accepted payload are each the sanitised one of the same field, and it would be accepted unchanged again |
| `Payload.ReadFirstAnswers` | sfu/ws_conn.go:130-175 | of the whole first message: a client is let in exactly by a well-formed join with such a name and user, with each field sanitised; every other answer names the first thing wrong, a malformed payload only if nothing else is |
| `Payload.DecodeGenerated` | sfu/interaction.go:76-78 | an interaction id can be read back from the right into origin, namespace and name, even if the origin holds `#` |
| `Payload.SameIdIff` | sfu/interaction.go:76-78 | two accepted payloads get the same id iff they agree on origin, sanitised namespace and sanitised name |
| `RateControl.UpdateMonotone` | sfu/sender_controller.go:87-105 | the capped update is monotone in the previous rate and antitone in the loss, over 0..255 and across its three branches |
| `RateControl.MidLossHolds` | sfu/sender_controller.go:101-103 | a report from 5 to 25 leaves the rate as it is |
| `RateControl.MidReportsPlayNoPart` | sfu/sender_controller.go:87-105 | any number of such reports, anywhere in a sequence of reports, does not change what it ends with |
| `RateControl.HighLossCut` | sfu/sender_controller.go:97-99 | a report above 25 cuts the rate by the factor 1 - loss/512, rounded down, but not below the minimum: the exact rate |
| `RateControl.LowLossRise` | sfu/sender_controller.go:94-96 | a report under 5 raises it by the factor 269/256, rounded down, but not above the maximum: the exact rate |
| `RateControl.LowLossRisesIff` | sfu/sender_controller.go:94-96 | below the maximum, a report under 5 strictly raises the rate iff the rate is at least 20; a lower rate is stuck |
| `RateControl.HighLossFalls` | sfu/sender_controller.go:97-99 | a report over 25 strictly lowers the rate or leaves it at the minimum |
| `RateControl.OneReportFloor` | sfu/sender_controller.go:91-105 | one report never cuts below min(rate, max(minimum, floor(rate*257/512))) |
| `RateControl.ShippedProductsFit32Bits` | config/sfu.yml:5-12 | with the shipped limits no intermediate product leaves the signed 32-bit range |
| `RateControl.RunStaysInRange` | sfu/sender_controller.go:69-76 | over any sequence of reports the rate stays within the limits |
| `RateControl.WorseRunEndsLower` | sfu/sender_controller.go:91-105 | pointwise worse reports, from a rate that is no higher, never end with a higher rate |
| `RateControl.LowLossReachesMax` | sfu/sender_controller.go:94-96 | with a minimum of at least 20, enough low-loss reports reach the maximum, from every rate, and stay there |
| `RateControl.HighLossReachesMin` | sfu/sender_controller.go:97-99 | enough high-loss reports reach the minimum and stay there |
| `RateControl.VideoNeeds51Reports` | config/sfu.yml:9-12 | with the shipped video limits 51 low-loss reports reach the maximum from any rate, and 50 from the minimum do not |
| `RateControl.SenderController.UpdateRateFromLoss` | sfu/sender_controller.go:87-105 | the loss rate moves as the update function says and remains what all reports so far make of the default |
| `RateControl.SenderController.ReceiverReport` | sfu/sender_controller.go:184-189 | a receiver report moves the rate by exactly the losses of the blocks about this sender's SSRC, in order |
| `Interpolation.EmittedMonotone` | sequencing/linear_interpolator.go:22-34 | the values sent go monotonically from the initial towards the final value |
| `Interpolation.EmittedOnLine` | sequencing/linear_interpolator.go:24-31 | the k-th value is, up to the duration, as far from the initial value, in proportion, as the k-th tick is from the start; after it, the final value |
| `Interpolation.GoesToStaysBetween` | sequencing/linear_interpolator.go:24-32 | values that do so never leave the interval between the two |
| `Interpolation.EmittedCount` | sequencing/linear_interpolator.go:22-34 | for ticks at least one step apart, at most duration/step values precede the last one |
| `Interpolation.EmittedEnds` | sequencing/linear_interpolator.go:24-28 | once a tick passes the duration the final value is sent, and nothing after it; before, each tick has sent one value; a negative duration sends the final value at once |
| `Interpolation.LinearInterpolator.Run` | sequencing/linear_interpolator.go:22-42 | the loop over a ticker that holds one tick back sends exactly the specified values and closes its channel once, when a tick passes the duration; it panics exactly if the ticker fires while the final value waits to be taken |
| `Interpolation.PanicHappens` | sequencing/linear_interpolator.go:22-42 | two ticks that make it panic |
| `PipelineProtocol.UnbrokenShape` | gst/pipeline.go:203-238 | an unbroken log is empty, or a start followed by pushes, or that followed by one stop |
| `PipelineProtocol.DoubleStartIff` | gst/pipeline.go:184-201 | with bind and check as separate steps of two goroutines, the pipeline always starts, and starts twice exactly when both outputs are set before either check |
| `PipelineProtocol.DoubleStartHappens` | gst/pipeline.go:184-201 | such an interleaving exists: startedCh would be closed twice |
| `PipelineProtocol.Pipeline.BindTrack` | gst/pipeline.go:184-191 | sets one output and starts the pipeline if that makes it ready, as the specification function says |
| `PipelineProtocol.Pipeline.CheckReady` | gst/pipeline.go:193-201 | starts an audio-only pipeline on audio, another one when both outputs are there |
| `PipelineProtocol.Pipeline.Stop` | gst/pipeline.go:221-238 | counts the stop and stops GStreamer at the last of 1 or 2 |
| `Recordings.DecimalInjective` | gst/pipeline.go:102 | different connection counts are written differently |
| `Recordings.FileInjective` | gst/pipeline.go:96-103 | two file names are equal iff user, connection count, start time, media, dry or wet and extension all are |
| `Recordings.FilesApart` | gst/pipeline.go:240-279 | files of two connections share a name iff user, count, start time and the part of the file (media, dry or wet, extension) agree, and the files of one connection are all different |
| `Recordings.FileRecordedIff` | gst/pipeline.go:240-279 | a file is recorded iff audio-only or split asks for its audio, split for its video, or a muxed mode for both in one; a wet one only with effects; each with the extension of its media |
| `Recordings.NameReads` | gst/pipeline.go:96-103 | a file name, written out |
| `Recordings.SameCountIff` | sfu/interaction.go:466-471 | a user has the same count in two states of a run iff no join of hers is accepted in between |
| `Recordings.RecordingsCollideIff` | sfu/peer_server.go:52 | over every run, files of two peer servers bear one name iff they are of one user, none of whose joins was accepted between the making of the two, started in the same millisecond and play the same part |
| `Runs.SharedCountHappens` | sfu/peer_server.go:52 | a run in which two peer servers of a user are given the same count |
| `Tracks.CleanFacts` | sfu/peer_server.go:110-129 | cleaning keeps every live track, adds none, doubles none, and without failed removal leaves exactly the live ones |
| `Tracks.PrepareOutTracksFacts` | sfu/peer_server.go:131-174 | returns true exactly when no AddTrack it needs fails; then exactly the missing expected tracks are added, once each; never an unexpected one; each new sender with one encoding gets its controller |
| `Tracks.UpdateFacts` | sfu/peer_server.go:233-242 | whatever the environment answers, an update that nothing runs into sends no track twice that was not, none of the user's own unless the room has size 1, and loses no live track; if it returns true all expected tracks are sent and in the offer, and without failed removal nothing else is |
| `Tracks.UpdateSucceedsIff` | sfu/peer_server.go:131-242 | an update returns true exactly when no needed AddTrack fails, no offer is pending and the three steps of the offer succeed |
| `Tracks.OfferStaysPending` | sfu/peer_server.go:176-231 | an offer whose local description is set is pending from then on, sent or not, and counted once; until an answer clears it no other is made, and afterwards one can be |
| `Tracks.UpdateIdempotent` | sfu/peer_server.go:110-174 | after a successful update a second one removes and adds nothing, in whatever order it walks |
| `Tracks.TwoSlicesEachCount` | sfu/interaction.go:126-129 | when each of n users has one audio and one video slice, 2n tracks are indexed |
| `Tracks.ExpectedCount` | sfu/peer_server.go:151-172 | then each user is to be sent 2(n - 1) tracks, or all 2n in a room of size 1 |
| `Tracks.SentOnceCount` | sfu/peer_server.go:135-149 | senders in use are at least as many as tracks sent, and equally many iff no track is sent twice |
| `Overlaps.SentTwiceIff` | sfu/peer_server.go:71-174 | two updates of one connection, in any interleaving: a wanted track not yet sent ends up sent twice iff each collects before the other's turn on it; at least once iff one of them met it |
| `Overlaps.SentOnceIff` | sfu/peer_server.go:71-174 | a connection that sends no track twice still sends none twice, iff the two updates cross on none of the tracks to be added |
| `Overlaps.SentTwiceHappens` | sfu/peer_server.go:71-174 | such a crossing exists for every track of another user |
| `JointRuns.DoubleSendHappens` | sfu/peer_server.go:69-75 | a run of both layers: a user comes back, the pass asked for before visits her in the middle of her initial update, and a track is sent to her twice |
| `SignalingSystem.StepInv` | sfu/mixer.go:50-88 | every step of signaling, each step of the unlocked initial update included, keeps the invariant: peers, senders, initial updates, offers, pass progress, controllers, rates, retries |
| `SignalingSystem.SignalingSafety` | sfu/peer_server.go:131-242 | in every state of every run, failed passes included: no peer is sent its own track unless the size is 1, each has at most one unanswered offer, and a track is sent twice only if a pass added it while the initial update, having collected, was adding |
| `Offers.PendingIff` | sfu/peer_server.go:176-231 | over every run, told from the steps alone: an offer is pending on a connection iff a step attempted one and no answer step has come since |
| `Offers.OffersCounted` | sfu/peer_server.go:176-231 | over every run, local descriptions set and answers applied are as many as the steps tell |
| `Offers.AnswerBetween` | sfu/peer_server.go:182-206 | between two local descriptions set on one connection there is an answer step |
| `InitialUpdate.AloneIsUpdate` | sfu/peer_server.go:69-75 | the steps of an initial update that nothing runs into reach exactly what one whole update makes of connection and controllers, whatever the environment answers |
| `SignalingSystem.DoubleSendIff` | sfu/peer_server.go:131-174 | in every reachable state, a step makes a connection that sends no track twice do so iff it is the initial update of that connection adding a track that is already sent |
| `SignalingSystem.EverTwiceIff` | sfu/peer_server.go:69-75 | over every run, a connection has ever sent a track twice iff its initial update has ever added one already sent |
| `SignalingSystem.AddsAgainIff` | sfu/peer_server.go:69-75 | over every run, the initial update adds an indexed track that is already sent iff a pass added it after the update had collected what was sent |
| `SignalingSystem.CrossedIff` | sfu/peer_server.go:69-75 | the history these results refer to records exactly the tracks that a pass of the run added to a connection whose initial update was adding tracks |
| `SignalingSystem.SuccessfulPass` | sfu/mixer.go:50-61 | a pass returning true leaves every peer with all it should be sent, in an offer made after the last of these tracks was added; if no removal failed, it is sent exactly that, iff its initial update did not add, after its visit, a track already gone |
| `JointRuns.GoneTrackCanBeSent` | sfu/peer_server.go:131-174 | a run of both layers in which a pass returns true, no removal having failed, and leaves a user sent a track that is gone |
| `Joint.TracksPerPeer` | README.md:514 | after such a pass with one audio and one video slice per user, a peer uses exactly 2(n - 1) senders, or 2 in a room of size 1, iff it is sent no track twice |
| `SignalingSystem.MissingNeverGrows` | sfu/mixer.go:50-88 | no step but a new track or a new peer adds to the expected tracks that are missing: not even a pass that fails half way |
| `SignalingSystem.PassPeerFailsIff` | sfu/mixer.go:76-87 | visiting a peer fails the pass exactly when a needed AddTrack fails, an offer is pending or the offer fails; then one retry is left |
| `SignalingSystem.NothingIsShutOut` | sfu/mixer.go:50-88 | reports, targets, negotiations and answers are possible in every state, a retry whenever no pass runs; a running pass can visit any peer left whatever the environment answers, and end when none is |
| `Joint.RetryNeverLost` | sfu/mixer.go:76-87 | while the room is not deleted, a failed pass not yet made good has a retry sleeping or a pass running |
| `SignalingSystem.EncoderTickSafe` | sfu/mixer_slice.go:333-377 | a target set by a tick lies in the video limits, is some controller's rate and exceeds none; every peer sent the track over one encoding has such a controller; under GCC no controller is without a rate |
| `Rates.TickTakesLeast` | sfu/mixer_slice.go:345-359 | every tick, without congestion control, computes the least of the loss-based rates, which lies in the video limits and always becomes the target; with it, the least of the rates it has set |
| `Rates.TickPossible` | sfu/mixer_slice.go:345-356 | such a tick is possible on every indexed video slice with controllers |
| `Rates.RatesFromReports` | sfu/sender_controller.go:184-189 | over every run, until the user is made a new sender of the track, her rate is what the losses reported about her copy make of the rate she had, and the other rate what was last asked for, capped |
| `Rates.NewSenderStartsAfresh` | sfu/mixer_slice.go:159-172 | a track newly sent over one encoding leaves the user with a controller at 64000 or 300000 and no target, whatever she had before |
| `Rates.RatesInLimits` | sfu/sender_controller.go:70-76 | in every reachable state rates lie between 32000 and 64000 for audio and 150000 and 1800000 for video, but for a target congestion control has not set |
| `Rates.TargetFromTicks` | sfu/mixer_slice.go:344-359 | over every run, a slice's target is the last positive rate of its ticks since it was indexed, and unset before |
| `Rates.OddIff` | sfu/mixer_slice.go:159-172 | the users excepted from what a tick respects are exactly those made a sender of its track without exactly one encoding |
| `SignalingSystem.TargetAlwaysInRange` | sfu/mixer_slice.go:284-288 | in every reachable state a target is 0 or within the video limits |
| `Passes.LoopIsSteps` | sfu/mixer.go:50-61 | the loop over all peers, as one computation with early exit, reaches what the peer-by-peer steps of the transition system reach |
| `Passes.PassReconciles` | sfu/mixer.go:50-61 | an uninterrupted pass from a reachable state that returns true leaves every peer with all its expected tracks, in its last offer, none sent twice that was not before, and, no removal having failed, nothing else |
| `Passes.PassSucceedsIff` | sfu/mixer.go:50-61 | a pass returns true iff for every peer no needed AddTrack fails, no offer is pending and the new offer succeeds |
| `Passes.RetriesCounted` | sfu/mixer.go:76-87 | over every run, the retries still to come are the visits whose update fails less the retries begun |
| `Passes.DeletedRoomIdles` | sfu/mixer.go:76-77 | over every run, once a room is deleted and no pass runs, no pass visits a peer any more |
| `Mixing.MinInt` | sfu/mixer_slice.go:66-76 | 0 for no values, else a value of the list that none is below |
| `Mixing.MixerSlice.AddSender` | sfu/mixer_slice.go:159-172 | a sender with exactly one encoding gets a controller at the default rate, replacing the user's older one; another gets none |
| `Mixing.MixerSlice.ReportTo` | sfu/sender_controller.go:184-189 | a receiver report to one sender changes that sender's rate alone |
| `Mixing.MixerSlice.CollectRates` | sfu/mixer_slice.go:346-351 | collects exactly the controllers' rates, for video only |
| `Mixing.MixerSlice.NewPotentialRate` | sfu/mixer_slice.go:345-356 | the least rate of all controllers of a video slice; 0 without controllers or for audio |
| `Mixing.MixerSlice.EncoderTick` | sfu/mixer_slice.go:344-359 | a tick sets the target to that rate when positive and changes nothing else |
| `Mixing.Mixer.AddSender` | sfu/mixer_slice.go:159-172 | a new sender of one indexed track changes no other track |
| `Mixing.Mixer.UpdateSignaling` | sfu/mixer.go:50-61 | the loop over the peers with early exit leaves peers and index as the specification of a pass says |
| `Mixing.Mixer.ManagedSignaling` | sfu/mixer.go:64-88 | nothing for a deleted room; otherwise one pass, and a retry exactly if it failed |
| `Mixing.PeerServer.CleanOutTracks` | sfu/peer_server.go:110-129 | the loop over the senders leaves them as specified |
| `Mixing.PeerServer.AlreadySentIndex` | sfu/peer_server.go:135-149 | collects exactly the indexed tracks already sent |
| `Mixing.PeerServer.PrepareTrack` | sfu/peer_server.go:151-171 | one turn of the loop over the mixer's tracks |
| `Mixing.PeerServer.PrepareOutTracks` | sfu/peer_server.go:131-174 | the loop leaves senders and controllers as specified, also when it gives up half way |
| `Mixing.PeerServer.ShareOffer` | sfu/peer_server.go:176-231 | sets a local description only when none is pending and the offer could be made; true only if it was also sent |
| `Mixing.PeerServer.SetRemoteDescription` | sfu/peer_server.go:373-384 | an answer is applied iff an offer is pending |
| `Mixing.PeerServer.UpdateTracksAndShareOffer` | sfu/peer_server.go:233-242 | clean, prepare, share, stopping at the first failure |
| `Mixing.PeerServer.Close` | sfu/peer_server.go:244-262 | doneCh is closed on the first close only; the user is disconnected on every close |
| `RoomSpec.NewRoomInv` | sfu/interaction.go:110-180 | a new interaction satisfies the invariant of an interaction |
| `Lifecycle.ReadyIff` | sfu/interaction.go:110-129 | over every run of a room made from a payload, readyCh is closed iff as many slices have been counted in as its size (the one asked for between 1 and 8, 2 if less, 8 if more) times the kinds it needs (one if audio-only, else two) |
| `Runs.VideoRoomNeedsFour` | sfu/interaction.go:126-129 | a run of a room of two with audio and video, not ready with both tracks of one user, ready with all four |
| `RoomSpec.StoppedRoomIsDeletable` | sfu/interaction.go:288-298 | right after either stop the room is not ready, even if a late track had made it so, and the last user to leave has it deleted, its abort timer stopped |
| `RoomSpec.JoinInv` | sfu/interaction.go:212-239 | joining keeps it |
| `RoomSpec.JoinAnswers` | sfu/interaction.go:212-239 | "full" is answered exactly to a new user when as many distinct users as the size have ever joined, "duplicate" exactly to a connected user, "reconnection" exactly to one who left |
| `RoomSpec.CountersInv` | sfu/interaction.go:329-389 | counting in-tracks and out-tracks keeps it, although the count is checked and raised in two critical sections |
| `RoomSpec.StartInv` | sfu/interaction.go:267-286 | start, called after readiness, keeps it: started once, from the first (size 1) or second call on |
| `RoomSpec.ConnectInv` | sfu/interaction.go:391-408 | connecting a peer server keeps it |
| `RoomSpec.DisconnectInv` | sfu/interaction.go:425-455 | disconnecting keeps it, deletion of an empty room not ready included |
| `RoomSpec.AbortTimerInv` | sfu/interaction.go:288-315 | each step of the abort countdown keeps it |
| `RoomSpec.GracefulTimerInv` | sfu/interaction.go:288-325 | each step of the graceful countdown keeps it |
| `RoomSpec.AbortLookIff` | sfu/interaction.go:306-315 | the fired timer aborts iff the room was never ready or has ended; otherwise the read lock is never released |
| `RoomSystem.AdvanceInv` | sfu/interaction.go:511-546 | every action of a slice goroutine keeps the invariant of the whole interaction |
| `RoomSystem.NewPeerInv` | sfu/peer_server.go:46-69 | so does a new peer server |
| `RoomSystem.TrackArrivesInv` | sfu/peer_conn.go:149-155 | so does a new track, of either kind on any connection |
| `RoomSystem.SessionInv` | sfu/peer_server.go:244-334 | so do the watcher and the first half of close |
| `RoomSystem.StepInv` | sfu/interaction.go:267-546 | so does every step: channels, timers, membership, counters, index, pipelines, sessions |
| `RoomSystem.ReachableLatest` | sfu/interaction.go:406-432 | over every run a user's entry in the peer server index is her last peer server |
| `RoomSystem.ReachableInv` | sfu/interaction.go:110-546 | the invariant holds in every state of every run |
| `Lifecycle.ChannelsClosedOnce` | sfu/interaction.go:267-354 | in every interleaving readyCh, startedCh, abortedCh and doneCh are each closed at most once, doneCh after startedCh after readyCh; likewise the channels of slices, peer servers and pipelines |
| `Lifecycle.OutCountIsGoroutines` | sfu/interaction.go:365-389 | outTracksReadyCount is the number of slice goroutines between increment and decrement, each in the mixer's index until its own removal |
| `Lifecycle.IndexCoversOutCount` | sfu/interaction.go:523-543 | the index never holds fewer tracks than outTracksReadyCount says, but for slices about to decrement |
| `Lifecycle.PassRequestedIff` | sfu/interaction.go:365-382 | a pass is asked for exactly when the slice goroutines past their count become the needed number, or an even number in a ready room; their tracks are then indexed |
| `Lifecycle.PipelineDiscipline` | sfu/mixer_slice.go:206-263 | every pipeline starts at most once, exactly when all its outputs are bound, and stops at most once; unless audio-only and given a video slice, only after its slices left their loops, and it is pushed to only in between |
| `Lifecycle.ClosedPeerStopsReading` | sfu/mixer_slice.go:240-263 | over every run, once its peer server is closed a slice that is not in the middle of a read never reads again |
| `Lifecycle.OpenPeerKeepsLooping` | sfu/mixer_slice.go:240-263 | over every run, as long as its peer server is open and no read fails a slice in its loop stays there |
| `Lifecycle.BreaksIff` | sfu/mixer_slice.go:200-263 | what breaks that order, on any pipeline, is exactly a push after the stop |
| `Runs.PushAfterStopHappens` | sfu/peer_conn.go:81-88 | a run in which an audio-only pipeline given a video slice is pushed to after its stop |
| `Lifecycle.MembershipAndPresence` | sfu/interaction.go:212-251 | accepted joins = joined count = effective disconnections + (1 if connected), at most size users ever, and no room is left behind that is neither deleted, ready, stopping nor inhabited |
| `Lifecycle.AbortDecision` | sfu/interaction.go:306-315 | over runs: abort is decided iff never ready or already done; a lock is leaked in the remaining case |
| `Lifecycle.StaleDisconnectIff` | sfu/interaction.go:425-432 | over runs, closing a peer server drops the entry of another one iff its user is connected and indexed, and a later peer server of hers exists |
| `Runs.StaleCloseHappens` | sfu/peer_server.go:244-262 | a run in which an old peer server closed again takes an open one out of the index |
| `Lifecycle.TimersDeleteIff` | sfu/interaction.go:288-325 | a room reaches deletion by timer steps alone iff it is deleted, not ready, started, or already aborting; so every started room does |
| `Lifecycle.WorkDecreases` | sfu/peer_server.go:319-334 | every step the goroutines take on their own lowers a measure |
| `Lifecycle.RestIsReached` | sfu/mixer_slice.go:200-282 | so a run of such steps is never longer than the measure |
| `Lifecycle.TeardownComplete` | sfu/interaction.go:533-543 | at rest after the end: room deleted once, every peer server closed once, every started pipeline stopped once, outTracksReadyCount counts the slices waiting for a start, and a slice that could be created is in the index iff its pipeline never started or it gave up waiting |
| `Lifecycle.EveryMaximalRunTearsDown` | sfu/peer_server.go:319-334 | from a reachable ended state without leaked lock, every run of internal steps is finite, and every one that cannot go on ends torn down |
| `Lifecycle.RestExists` | sfu/peer_server.go:319-334 | and some such run does come to rest |
| `Lifecycle.WaitingForeverIff` | sfu/interaction.go:500-509 | at rest, ended or deleted as empty, a slice that could be created waits for ever iff the room was neither ever ready nor aborted |
| `Runs.EndedRoomKeepsSlices` | sfu/interaction.go:533-543 | a run that ends an aborted room, at rest, with two slices in the mixer: one whose pipeline never started, one that gave up waiting |
| `Runs.LockLeakHappens` | sfu/interaction.go:306-315 | a run in which the abort countdown returns with the read lock held |
| `Lifecycle.LeakedLockFreezes` | sfu/interaction.go:306-315 | over every run, from then on nobody joins, connects, leaves or is counted any more |
| `Runs.EmptyRoomCanLinger` | sfu/interaction.go:448-453 | a run that leaves an empty room, ready and never started, that no timer will delete: one of its two users joined for audio only, the other not, and both brought audio |
| `Runs.WaitingSliceCanBeForgotten` | sfu/interaction.go:448-453 | a run in which a room is deleted as empty while a slice waits for readiness, indexed, for ever |
| `World.DoInv` | sfu/interaction_store.go:28-50 | every join and every step of a room keeps the store's invariant |
| `World.StoreNeverLosesLiveRoom` | sfu/interaction_store.go:28-50 | over every run a room is what the index maps its id to iff it is not deleted, or deleted and not erased yet; it is erased at most once |
| `World.DeletionEvictsOnlyItself` | sfu/interaction.go:411-423 | entries leave the index only by erasure, and an erasure by id takes the deleted room it is meant for, never a newer one of the same id, although joins get in between flag and erasure |
| `World.SameRoomIff` | sfu/interaction_store.go:32-41 | two payloads reach the same room iff they agree on origin, sanitised namespace and sanitised name |
| `World.SentUserJoins` | sfu/interaction_store.go:28-43 | a join connects exactly the sanitised user sent, unless the room is full, and nobody else |
| `World.SentRequestWaits` | sfu/interaction_store.go:28-43 | an accepted join leaves one peer server to be made, for the sanitised user and with the kinds asked for; a refused one none |
| `World.SecondIsDuplicateIff` | sfu/interaction.go:212-222 | of two payloads in a row to one room, the first not refused as full, the second is a duplicate iff its sanitised user is the first one's or was connected before both |
| `Joint.LifecycleInv` | sfu/mixer.go:30-44 | every lifecycle step is, for signaling, one of its own enabled steps or none, and a deletion is its deletion; both invariants and their agreement are kept |
| `Joint.SignalingInv` | sfu/mixer.go:50-88 | every signaling step keeps both invariants and their agreement |
| `Joint.PassSendsLiveTracks` | sfu/mixer.go:50-61 | over every run of both layers, after a pass returning true every user is sent all tracks of the others' live slice goroutines, all offered; without failed removal nothing else, iff her initial update added no track already gone after her visit |
| `Coverage.LiveTracksAreGiven` | sfu/interaction.go:365-382 | over every run, when no pass is running, asked for or owed, every user is sent and offered every live track of the others, but for users connected, and tracks indexed, since a pass last returned true, and of these tracks only those not counted out or never asked for |
| `Coverage.UnaskedIff` | sfu/interaction.go:371-381 | a track is one no pass was asked for iff it was counted out, and neither then nor since did a count reach the number needed or, in a ready room, an even number |
| `Coverage.LastCountDecides` | sfu/interaction.go:371-381 | no track is left unasked for iff the last one counted out brought the count to such a number |
| `Coverage.AskedCounted` | sfu/interaction.go:365-382 | over every run, the passes asked for and not begun are those a right count or the leaving of a deleted room asked for, less those begun that are no retries |
| `JointRuns.TrackCanGoUnasked` | sfu/interaction.go:371-381 | a run in which everything asked for is done, every slice is counted out, and a live track is not sent to the other user, because it was counted out as the third |
| `Interactions.Interaction.constructor` | sfu/interaction.go:110-180 | size limits, needed tracks and first member as specified |
| `Interactions.Interaction.JoinUser` | sfu/interaction.go:212-239 | answer and new state as specified |
| `Interactions.Interaction.ConnectedUserCount` | sfu/interaction.go:241-251 | the loop counts exactly the connected users |
| `Interactions.Interaction.StartPipeline` | sfu/interaction.go:267-286 | new state as specified |
| `Interactions.Interaction.IncInTracks` | sfu/interaction.go:343-352 | second critical section: ready, timer stopped and readyCh closed at exact equality |
| `Interactions.Interaction.IncOutTracks` | sfu/interaction.go:365-382 | new count and whether a pass is needed |
| `Interactions.Interaction.Delete` | sfu/interaction.go:411-423 | deletes once, and takes exactly this interaction out of the store |
| `Interactions.Interaction.DisconnectPeer` | sfu/interaction.go:425-455 | new state as specified; the store loses this interaction exactly if it gets deleted; signaling is asked for exactly when a connected user leaves a room already deleted |
| `Interactions.Interaction.StopAfterSleep` | sfu/interaction.go:299-302 | deletes |
| `Interactions.Interaction.AbortCountdown` | sfu/interaction.go:306-315 | once the timer has fired: stops and deletes the room iff it is not ready, and otherwise keeps the read lock |
| `Interactions.Interaction.IncInTracksReadyCount` | sfu/interaction.go:329-354 | both critical sections in a row: counts the track unless all needed ones are there |
| `Interactions.InteractionStore.JoinRoom` | sfu/interaction_store.go:28-43 | joins the live interaction of the payload's id or makes it; no other interaction changes or is lost |

## Left out

- Pion peer connections, ICE, SDP text, websockets, GStreamer C code and its templates: external behaviour; their answers are parameters, calls into C are events of a log.
- Logging, plots, statistics, environment and YAML loading, TURN/STUN, the HTTP server and the front end: I/O or user interface. Of the configuration only the bitrate limits appear.
- Deadlock freedom: `interactionStore.join` locks store then interaction, `disconnectUser` interaction then store; a failed websocket write inside a pass may re-enter `disconnectUser` while the read lock is held. Nothing is claimed about either.
- Exact sent tracks outside passes: after a user leaves the code requests no effective signaling.
- Durations, `remainingSeconds`, `endingDelay`, the "ending" watcher and messages to clients: they depend on the clock or only inform.
- The SSRC index and `filesIndex`: filled asynchronously, read only by other parts.
- `controlFx`: the interpolator index of effects and its races between stopping and restarting.
- 32-bit floats of the interpolator: it is modelled over reals.
- The bypass recording mode of the slice loop, which writes packets straight to the output track: no pipeline push to order.
- `dispatchInteractionPLI` and keyframe requests: fire-and-forget messages.
- The blocking parts of `mixerSlice.loop` and of the watchers are steps of `RoomSystem`, not methods of a class: Dafny methods have no blocking receive.
- The identity of peer servers in `Interactions.Interaction`: they are numbers there and objects in `Mixing.Mixer`.
- Mutual exclusion of abort and graceful end: a late track may still make an aborting room ready, so it does not hold.
- "Ready means everyone is present": in-tracks are never counted down; the counters are stated as numbers of goroutines instead.
- SignalingSystem.SignalingSafety: does not promise that no track is sent twice, because one may be; `SignalingSystem.EverTwiceIff` and `SignalingSystem.AddsAgainIff` say exactly when.
- Overlaps.SentOnceIff: holds the index fixed and has two updaters; the transition system has changing indexes and any number of passes.
- Recordings.FileInjective: takes the 19 characters of a formatted time as given; extensions hold no dot, as in config/gst.yml.
