# Verified model of the peer-to-peer KVM core

Two machines share keyboard, mouse, audio, clipboard and files over one framed connection.
This project models, in Dafny, the parts of that program that must keep a property over
every run, and proves those properties:

- **Outgoing frames** (`AudioLane`, `MouseLane`, `SendMux`, `MuxBounds`, `MuxWriter`,
  `EnqueueSend`): four lanes and one writer. The audio lane drops only data, the mouse lane
  coalesces without losing displacement, the reliable lane drops an input transition only by
  ending the session, and the writer keeps each lane in order, serves it within a bounded
  number of sends (the bounds are exact, with real producers), and wakes for whatever is queued
  without its ticker.
- **Audio** (`Pcm`, `PcmEncode`, `Channels`, `ChannelLaws`, `FrameMaps`, `Resampler`, `Curves`,
  `AudioFormats`, `AudioCapture`, `AudioSession`, `AudioRace`, `AudioDelivery`, `Playout`,
  `JitterBuffer`, `PlayoutBuffer`, `PlayoutLaws`, `Listening`, `PlayoutRatios`): conversions and
  the streaming resampler against batch definitions and what both do to a signal, packetisation
  independent of how the capture was cut, agreement of sender and receiver on the format of
  every decoded frame and exactly when several senders spoil it, the samples that arrive, and
  the adaptive jitter buffer: its control laws, what is heard of everything pushed, and the
  rates it can follow.
- **File transfer** (`FileChunks`, `FileSend`, `FileSenders`, `FileReceive`, `FileTransfers`,
  `FileDelivery`, `FileHandling`, `TransferNames`, `OfferNames`): the sender's loop, the
  receiver's lock sections, and all handlers interleaved: content, single outcome, when a send
  completes and that it can, names and which offers are accepted.
- **Sessions** (`SessionSlot`, `SessionHandling`, `RateLimiter`, `RouteCache`): the session slot under racing
  installs and exits, the sliding-window limit over the true history, the cache that resolves
  without its lock.
- **Remote input** (`RemoteInput`, `InputHandling`, `ControlledInput`): tracking of what injection
  holds down, and when it is let up.
- **Wire format** (`Framing`, `Codecs`, `WireFormat`).

`Bytes`, `Options`, `Frames`, `Seqs` and `Arith` hold what these share. Code that changes state
is a class whose methods are tied to functions on values; concurrent code is a state machine
over the same functions whose steps are the lock sections of the source, run by any number of
threads; main results quantify over every run. Samples, positions and gains are reals, times are integers,
fixed-width integers wrap where the source lets them wrap, foreign calls (encoders, disk, clock,
adapters, injection) are inputs that may answer anything.

Results that are not plain confirmations:

- `PlayoutRatios.SafeRates`: `Render` trims without the clamp the resampler has. With the source
  and device rates fixed, no run of any profile leaves the queue if and only if
  `srcRate * 1.003 <= 4 * dstRate`; outside, `FailingRun` builds the run.
- `AudioRace`: the session's agreement (`AudioSession.AudioAgreement`) needs a sender call and
  the enqueueing of its frames to be one step, which threads other than the capture thread do
  not keep to. `Window` says exactly which pushes must not fall between which, `CarefulRunsAgree`
  and `CarelessPushMisread` that this is enough and necessary, and two runs show both races.
- `OfferNames.AcceptedIff`: exactly which offers this program builds are refused by the same
  program, in terms of the chosen files.
- `SessionSlot.DisconnectBeforeConnect`, `ConnectFirst`: `OnDisconnect` can come before
  `OnConnect`, exactly by a `Disconnect` call, and such a run exists (`DisconnectCanOvertake`).
- `drainHighPriority` is documented as sending up to the burst; it can send one frame more
  (`MuxWriter.Writer.DrainHighPriority`), exactly in the case of `MuxBounds.DrainSends17`.
- `Codecs.HelloRoundTrip`: exactly which hello messages survive.

Check with `dafny verify dfyconfig.toml`.

## Model

| member | source | states |
|---|---|---|
| `AudioLane.FirstData` | internal/app/send_mux.go:72-80 | the index returned is that of the oldest droppable frame: nothing before it is droppable |
| `AudioLane.PushLaw` | internal/app/send_mux.go:70-101 | a push into a lane with room drops nothing; in a full lane exactly the oldest data frame makes way, or the newcomer if it is the only one, and a control frame is queued in any case |
| `AudioLane.Lane.Append` | internal/app/send_mux.go:70-92 | the queue, the drop count and whether the frame was queued, for a lane that makes room by removing its oldest data frame and never a control frame |
| `AudioLane.Lane.Push` | internal/app/send_mux.go:70-101 | the same with the wake-up signal: it is set unless the incoming frame itself was refused |
| `AudioLane.Lane.Pop` | internal/app/send_mux.go:104-117 | takes exactly the head, or reports an empty lane |
| `AudioLane.Lane.Clear` | internal/app/send_mux.go:125-133 | empties the lane and reports how many frames were thrown away |
| `AudioLane.ThinnedRemove` | internal/app/send_mux.go:77-86 | leaving out a data frame later, wherever it then stands, still leaves an order-preserving thinning of what was pushed |
| `AudioLane.ThinnedControls` | internal/app/send_mux.go:54-66 | a thinning contains exactly the control frames that were pushed, in order |
| `AudioLane.RunFaithful` | internal/app/send_mux.go:70-133 | every run since a clear: sent ++ queued is an order-preserving thinning of pushed that keeps every control frame; pushed = sent + queued + dropped; the queued data is the freshest data; length is at most max(128, queued control frames) |
| `SendMux.CountersStay` | internal/app/send_mux.go:157-210 | in every run the burst counters stay in the ranges the loops rely on |
| `SendMux.WriterAdvances` | internal/app/send_mux.go:157-210 | every writer step that does not serve a waiting lane uses up one of the steps, and, if it sends, one of the sends that may still precede that lane |
| `SendMux.BoundedWaiting` | internal/app/send_mux.go:157-210 | every run, arbitrary producers between any two steps: while a lane is non-empty and unserved at most 3 (mouse), 3 (high), 18 (audio), 22 (file) other frames are sent and fewer than 7, 7, 40, 49 writer steps are taken, so no lane starves |
| `MuxBounds.BoundsAttained` | internal/app/send_mux.go:157-210 | the bounds are exact: for each lane there is a run, from the empty mux and with producers that only enqueue within the capacities, in which the first frame of the empty lane waits behind exactly 3, 3, 18 and 22 other sends |
| `MuxBounds.DrainSends17` | internal/app/send_mux.go:274-294 | one call of drainHighPriority sends at most 17 frames, and 17, one more than the burst, exactly when it finds a mouse move after 15 sends and then a control frame |
| `SendMux.NoLostWakeup` | internal/app/send_mux.go:93-100 | every interleaving of any number of pushers and the writer: a writer in or heading for the idle select with queued audio has the signal token, or a pusher is between its append and its signal |
| `SendMux.QueuedMeansRunnable` | internal/app/send_mux.go:162-196 | whenever any lane holds a frame, the writer machine has a step other than the ticker's, or an audio producer is about to wake it |
| `SendMux.LaneOrder` | internal/app/send_mux.go:157-210 | first in, first out, in every run: what a lane held and what producers added to it is what was sent from it, in that order, followed by what still waits |
| `SendMux.IdleServesAny` | internal/app/send_mux.go:194-207 | whatever is ready at the idle select, the token included, a step of the writer takes it: the token, or the head of the lane, which is sent |
| `SendMux.IdleServesOne` | internal/app/send_mux.go:194-207 | every step from the idle select starts a new cycle, and either the ticker fired or exactly one ready case was served |
| `SendMux.RunnableIff` | internal/app/send_mux.go:157-210 | the writer waits for the ticker only in the idle select with nothing ready there |
| `SendMux.EveryLaneServed` | internal/app/send_mux.go:157-210 | in every state of every run with no push half done, the writer by itself and without the ticker gets to any lane that has something queued and sends its head, within the step bound |
| `MuxWriter.Writer.DrainHighPriority` | internal/app/send_mux.go:274-294 | one call sends at most 17 frames (burst + 1), leaves the loop state its caller expects, and every operation in it is a step of the writer machine |
| `MuxWriter.Writer.AudioPart` | internal/app/send_mux.go:168-185 | at most 4 audio frames per cycle, yielding after a frame as soon as input waits; progress is reported exactly if something was sent |
| `MuxWriter.Writer.FilePart` | internal/app/send_mux.go:186-193 | at most one file chunk per cycle; the writer goes idle exactly if nothing was sent in the cycle |
| `MuxWriter.Writer.IdleSelect` | internal/app/send_mux.go:194-207 | one look at the select, with the ticker as an input: blocked exactly if it has not fired and nothing is ready; if it has not fired and something is ready, exactly one ready case was served; what was sent is the head of that lane |
| `MuxWriter.Writer.MuxLoop` | internal/app/send_mux.go:157-210 | any number of rounds (a cycle, or one more look at the select while it blocks) is a run of the writer machine whose sends are exactly what is on the wire; each round sends at most 22 frames |
| `MuxWriter.TracedWaiting` | internal/app/send_mux.go:157-210 | the waiting bounds hold for every stretch of an execution of the loop |
| `MouseLane.Lane.Enqueue` | internal/app/send_mux.go:342-381 | with a writer receiving between any two channel operations: sent ++ queued gains exactly the displacement of the move (int32 wrap-around per axis), gains no wake it was not given, and stays a list of well-formed mouse moves; a move that finds room is queued unchanged |
| `MouseLane.Lane.Drain` | internal/app/send_mux.go:355-367 | the drain loop accumulates every queued move and leaves the channel empty; moves the writer took meanwhile are not counted twice |
| `MouseLane.Lane.Coalesce` | internal/app/send_mux.go:348-381 | the accumulated move is queued again without loss, or dropped exactly when it cancelled to zero |
| `MouseLane.Lane.EnqueueAll` | internal/app/send_mux.go:342-381 | over a burst of moves the total displacement sent or queued equals the total enqueued |
| `MouseLane.RunConserves` | internal/app/send_mux.go:342-381 | the same for every run: displacement is conserved modulo 2^32 per axis and no wake appears from nowhere |
| `EnqueueSend.Mux.EnqueueHigh` | internal/app/send_mux.go:324-338 | a full reliable lane drops the frame, and ends the session exactly if the frame is an input transition |
| `EnqueueSend.Mux.EnqueueFile` | internal/app/send_mux.go:317-322 | while the program runs a chunk is never dropped, the producer waits for the writer; once the program ends it may be dropped or queued; nothing else in the lane changes |
| `EnqueueSend.Mux.EnqueueSend` | internal/app/send_mux.go:301-338 | mouse moves coalesce, frames of the audio streams go to the ordered lane, file chunks wait for room, every other frame goes last into the reliable lane if there is room; the other lanes are untouched; the session ends exactly if a full lane refuses an input transition |
| `EnqueueSend.RunReliable` | internal/app/send_mux.go:324-338 | every run: the session has been ended if and only if an input transition is missing, and until then sent ++ queued is what was enqueued with only harmless frames left out, in order |
| `Resampler.CubicMeaning` | internal/audio/resample.go:4-10 | the interpolation passes through its two inner points and reproduces straight lines exactly |
| `Curves.OnlyCurve` | internal/audio/resample.go:4-10 | the interpolation is the one cubic with the values of the two inner points and, at them, the slopes of their neighbours |
| `Curves.CubicQuadratic` | internal/audio/resample.go:4-10 | every quadratic is reproduced exactly |
| `Curves.LeavesWithSlope` | internal/audio/resample.go:4-10 | the curve leaves its first inner point with half the difference of that point's neighbours, up to a stated quadratic rest |
| `Curves.EntersWithSlope` | internal/audio/resample.go:4-10 | and comes to its second one with half the difference of its neighbours, so neighbouring pieces join smoothly |
| `Curves.ResampledFollows` | internal/audio/resample.go:21-64 | resampling keeps time: a channel that samples a quadratic comes out sampling the same quadratic at k * src / dst, in every channel and at every rate |
| `Resampler.DueIsReadable` | internal/audio/resample.go:37-43 | output frame k is due after n input frames exactly if its four source frames lie inside the n + 1 frames of silence ++ input |
| `Resampler.MoreInputMoreDue` | internal/audio/resample.go:35-64 | more input never takes output back |
| `Resampler.BatchIgnoresLater` | internal/audio/resample.go:35-64 | output frames that can be read do not depend on what is appended later |
| `Resampler.AlignedDue` | internal/audio/resample.go:40-43 | the loop test of the streaming form is the batch definition's count, whatever has been trimmed |
| `Resampler.AlignedTrim` | internal/audio/resample.go:55-62 | dropping consumed frames keeps the buffer aligned with the whole history |
| `Resampler.StreamResampler.Emit` | internal/audio/resample.go:40-53 | the read loop emits exactly the batch frames that have become due |
| `Resampler.StreamResampler.Trim` | internal/audio/resample.go:54-62 | every drop is inside the buffer and at most 3 frames stay |
| `Resampler.StreamResampler.Process` | internal/audio/resample.go:35-64 | after any calls the concatenated output is the batch resampling of the concatenated input, with at most 3 frames buffered; a 1:1 ratio passes the input through |
| `Resampler.ProcessAll` | internal/audio/resample.go:21-64 | any cutting of a stream into pieces yields the resampling of the whole |
| `Pcm.ParseSpec` | internal/audio/format.go:123-147 | an accepted format has a rate, channel count, sample codec and block alignment the decoder can index with |
| `Pcm.AnnouncedFormatUnderstood` | internal/audio/format.go:149-158 | the 16-bit format blob is parsed back to its rate and channels if and only if both are in the accepted ranges |
| `Pcm.SignedRoundTrip` | internal/audio/format.go:173-199 | little-endian two's complement of 2, 3 and 4 bytes is decoded to the number it encodes |
| `Pcm.DecodeSample` | internal/audio/format.go:173-199 | every bit pattern decodes into [-1, 1], NaN and infinities included |
| `Pcm.SampleFidelity` | internal/audio/format.go:203-237 | encoding then decoding a sample gives its clamped value to within one quantization step and a half |
| `Pcm.DecodePCM` | internal/audio/format.go:173-199 | the nested loops append exactly the per-block decoding of the whole frames and ignore an incomplete last one |
| `Pcm.DecodedBounds` | internal/audio/format.go:173-199 | every whole block yields exactly one sample per channel |
| `Pcm.DecodedAt` | internal/audio/format.go:173-199 | sample c of frame f is decoded from its own bytes and from nowhere else |
| `Pcm.IntegerSamples` | internal/audio/format.go:173-199 | what integer samples of 2, 3 and 4 bytes stand for: least significant byte first, the last byte signed, full scale just below one |
| `Pcm.FloatDoubles` | internal/audio/format.go:186-194 | float32 bit patterns: one more in the exponent doubles the value |
| `Pcm.FloatEven` | internal/audio/format.go:186-194 | ... within an exponent the values are evenly spaced and rise |
| `Pcm.QuantizeNearest` | internal/audio/format.go:203-237 | encoding takes the nearest step of the clamped value |
| `Pcm.AcceptedFields` | internal/audio/format.go:93-147 | an accepted format has the rate, channels, block size and sample width that its fields announce |
| `Pcm.AcceptedIff` | internal/audio/format.go:93-147 | exactly which format blobs are accepted, plain and extensible, byte by byte |
| `PcmEncode.EncodePCM` | internal/audio/format.go:203-224 | in place, for every valid format: the buffer ends as specified, frame by frame, padding untouched |
| `PcmEncode.PaddingStays` | internal/audio/format.go:203-224 | bytes of the buffer that belong to no frame's samples are as before |
| `PcmEncode.FilledFidelity` | internal/audio/format.go:173-224 | with any padding, decoding the filled blocks gives back every sample to within the tolerance of its codec |
| `PcmEncode.FilledExact` | internal/audio/format.go:203-224 | for unpadded formats nothing of the buffer's old contents is left |
| `PcmEncode.StreamFidelity` | internal/audio/format.go:173-224 | decoding an encoded stream gives back every sample to within the tolerance of its codec |
| `Channels.MapFrameNeverClips` | internal/audio/format.go:245-281 | folding any number of channels into stereo or mono stays in [-1, 1] |
| `ChannelLaws.SmallLayouts` | internal/audio/format.go:239-281 | mono goes to both sides, two sides are averaged into one, channels beyond the second stay silent, an equal layout is left alone |
| `ChannelLaws.ChannelContributes` | internal/audio/format.go:251-272 | each surround channel contributes to its own side or sides in proportion to its sample, folded channels at one level, low frequencies not at all, and independently of the others |
| `ChannelLaws.FullScale` | internal/audio/format.go:251-272 | the scale is the largest that never clips: with every channel at full level the left side is exactly at full level; silence stays silence |
| `Channels.FoldSurround` | internal/audio/format.go:256-270 | the surround loop computes the normalised fold of every extra channel to its side |
| `Channels.MapChannels` | internal/audio/format.go:239-281 | every whole frame appears in the other layout, in order, an incomplete one is ignored, and equal layouts are copied |
| `FrameMaps.FrameMapConcat` | internal/audio/format.go:173-281 | block-wise conversions do not depend on where a stream is cut between blocks |
| `FrameMaps.FrameMapFuse` | internal/audio/format.go:173-281 | two block-wise conversions in a row are one |
| `FrameMaps.FrameMapAt` | internal/audio/format.go:173-281 | block i of the result is the conversion of block i |
| `AudioFormats.AnnouncementUnderstood` | internal/audio/stream.go:275-313 | the two frames of an announcement put a receiver in any state exactly into the announced transport and format, or, without a decoder, into one that plays nothing |
| `AudioFormats.ChoiceIsValid` | internal/audio/stream.go:124-187 | whatever the device format, the transport and format chosen for it are ones the receiver accepts |
| `AudioFormats.ReadyWhen` | internal/audio/stream.go:275-313 | exactly which payloads make a receiver ready, under which transport and format, and that nothing else changes its settings |
| `AudioFormats.ReceivedSamples` | internal/audio/stream.go:317-336 | what a ready PCM receiver makes of any payload: dropped exactly if empty or ending within a frame, else one sample per channel of each frame, each decoded from its own bytes |
| `AudioFormats.InStaysOk` | internal/audio/stream.go:275-313 | no payload, however malformed, makes a receiver ready without a valid transport and format |
| `AudioFormats.InboundStream.HandleTransport` | internal/audio/stream.go:275-283 | accepted exactly if the payload names a known transport; the stream then waits for a format |
| `AudioFormats.InboundStream.HandleFormat` | internal/audio/stream.go:287-313 | succeeds exactly if the stream is ready afterwards; any failure leaves it not ready |
| `AudioFormats.InboundStream.HandleData` | internal/audio/stream.go:317-336 | data is decoded as specified, with |payload| / blockAlign * channels samples, or counted as dropped |
| `AudioCapture.OutboundStream.Configure` | internal/audio/stream.go:96-158 | on a usable device format the stream restarts empty under the chosen settings, with Opus blocks of 10 or 20 ms, and returns exactly their announcement; otherwise nothing changes |
| `AudioCapture.OutboundStream.Reannounce` | internal/audio/stream.go:104-111 | fails exactly before the first configuration; otherwise it announces what data is made under from then on |
| `AudioCapture.OutboundStream.Reconfigure` | internal/audio/stream.go:115-122 | the same for a changed transport or profile on the current device |
| `AudioCapture.OutboundStream.Packetise` | internal/audio/stream.go:224-241 | blocks given to the encoder followed by what is pending are the signal so far, every block is whole, pending is shorter than a block, and the frames carry exactly the packets in order |
| `AudioCapture.CarriedInOrder` | internal/audio/stream.go:229-237 | one frame for each packet that is not empty, carrying that packet, after the frames of the packets made before it |
| `AudioCapture.PlainSignal` | internal/audio/stream.go:124-158 | desktop audio of one or two channels at up to 48 kHz is sent in PCM sample for sample as captured |
| `AudioCapture.OutboundStream.Process` | internal/audio/stream.go:204-242 | a captured buffer adds its whole device frames to the signal; PCM frames carry exactly what it adds, Opus frames the packets of the blocks it completes; an error is reported and noted |
| `AudioCapture.Capture` | internal/audio/stream.go:204-242 | for any list of captured buffers: the signal is that of all their whole device frames at once, and without encoder errors the blocks followed by pending are that signal, every block whole and pending shorter than one |
| `AudioCapture.AllWholeIsFlat` | internal/audio/stream.go:204-210 | buffers of whole device frames count as their concatenation, wherever the cuts are |
| `AudioCapture.SignalWholeFrames` | internal/audio/stream.go:204-242 | the signal is a whole number of wire frames, so no sample is left out of a PCM frame |
| `AudioCapture.LayoutConcat` | internal/audio/format.go:173-281 | decoding and channel mapping of two buffers is that of their concatenation |
| `AudioCapture.PcmFrameFidelity` | internal/audio/stream.go:215-223 | a PCM data frame carries its samples to the receiver to within 1.5/32768 |
| `AudioSession.UnderstoodWithout` | internal/audio/stream.go:275-336 | removing any data frame from what is under way never changes how the rest is understood |
| `AudioSession.PushUnderstood` | internal/app/send_mux.go:70-101 | a push into the lane, with whatever it drops, keeps everything under way understood |
| `AudioSession.HandleAgrees` | internal/audio/stream.go:275-313 | the receiver's state always agrees with the announcements it has handled |
| `AudioSession.StepSound` | internal/app/app_audio_runtime.go:24-54 | every step of a session (sender calls, pushes, the other stream, writes, arrivals that drop data, dispatch) keeps all frames under way understood by the receiver |
| `AudioSession.RunSound` | internal/app/app_startup.go:159-175 | the same for every run of a session |
| `AudioSession.AudioAgreement` | internal/audio/stream.go:124-336 | end to end, every run, whatever is dropped: each data frame that is decoded is decoded under exactly the transport and format it was made under |
| `AudioDelivery.PcmReceived` | internal/audio/stream.go:204-336 | a PCM receiver set up as announced never drops a frame that carries samples, and plays all of them to within 1.5/32768 |
| `AudioDelivery.AudioHeard` | internal/app/app_audio_runtime.go:24-54 | end to end, every run: the receiver that gets to a PCM data frame plays all its samples to within 1.5/32768; an Opus packet is handed on whole or dropped |
| `AudioDelivery.RunDelivers` | internal/app/app_audio_runtime.go:24-54 | every run: what the receiver has been given and what is under way is what the sender calls returned, in order, with only data frames left out, and with nothing left out if no queue was full |
| `AudioRace.CarefulRunsAgree` | internal/app/app_audio_runtime.go:24-54 | finer interleaving, any number of threads pushing frame by frame: if every pushed data frame agrees with what has been announced to the lane by then, no data frame is ever misread |
| `AudioRace.CarelessPushMisread` | internal/app/app_audio_runtime.go:126-142 | and conversely: a push that does not agree is misread in some continuation of the run, unless a full lane refuses the frame or the receiver has lost its decoder |
| `AudioRace.ForeignData` | internal/audio/stream.go:317-336 | data that meets another transport or format is misread exactly if the receiver takes the payload |
| `AudioRace.Window` | internal/app/app_audio_runtime.go:107-142 | exactly which pushes must not fall between which: no old data after the new format frame and no new data before the new transport frame, unless nothing changes or the payload is refused; in between nothing can be misread |
| `AudioRace.EarlyDataMisread` | internal/app/app_audio_runtime.go:126-142 | for every device such a run exists: a packet made after a switch to Opus overtakes its announcement and is played as samples |
| `AudioRace.LateDataMisread` | internal/app/app_audio_runtime.go:126-142 | and one for the other direction: samples captured before the switch follow its announcement into the Opus decoder |
| `Playout.ProfilesOrdered` | internal/audio/playout.go:15-24 | each profile has target <= ceiling <= maximum; its maximum is a frame or more exactly from the rate at which it lasts one |
| `Playout.FadeShape` | internal/audio/playout.go:242-257 | the fade-out starts below full level, never rises and ends in silence |
| `Playout.DriftBounded` | internal/audio/playout.go:173-181 | the smoothed correction never leaves +-0.3% |
| `PlayoutLaws.WantedAbsorbs` | internal/audio/playout.go:173-181 | inside the limit, two seconds at the wanted correction make up for the level error |
| `PlayoutLaws.DriftConverges` | internal/audio/playout.go:173-181 | over renders at one level and target the distance from the wanted correction shrinks by exactly 0.95 each, from any start |
| `PlayoutLaws.DriftAntisymmetric` | internal/audio/playout.go:173-181 | too much and too little audio are corrected alike |
| `PlayoutLaws.DriftRests` | internal/audio/playout.go:173-181 | no correction stays no correction exactly at the target level |
| `PlayoutLaws.DriftRises` | internal/audio/playout.go:173-181 | inside the limits more audio always means a higher correction; at them it saturates |
| `PlayoutLaws.StepLaw` | internal/audio/playout.go:181-184 | the step reads srcRate * (1 + adj) source frames per dstRate output frames |
| `PlayoutLaws.FadeInTime` | internal/audio/playout.go:184-210 | the fade-in is over exactly when 5 ms, and at least one frame, have been played |
| `PlayoutLaws.FadeOutTime` | internal/audio/playout.go:242-260 | the fade-out is linear and silent after 3 ms |
| `PlayoutLaws.PlaysWhen` | internal/audio/playout.go:156-172 | playing starts exactly once the target level and three frames are buffered, and goes on at any level |
| `PlayoutLaws.UnderrunRaises` | internal/audio/playout.go:228-238 | an underrun stops playing and raises the target by 10 ms, but not over its ceiling |
| `PlayoutLaws.RelaxFalls` | internal/audio/playout.go:219-225 | the target falls by 5 ms, never below the profile's, exactly when the last underrun and the last fall are more than ten seconds ago |
| `PlayoutLaws.DryMeansUnderrun` | internal/audio/playout.go:184-217 | a render underruns exactly if it runs dry |
| `PlayoutLaws.RestFades` | internal/audio/playout.go:242-260 | everything a render writes beyond what it plays fades out from the last frame heard |
| `PlayoutRatios.SafeRates` | internal/audio/playout.go:181-217 | for every profile and every source rate from 8000 up: no run at these rates has a Render whose trim leaves the queue if and only if srcRate * 1.003 <= 4 * dstRate |
| `PlayoutRatios.FailingRun` | internal/audio/playout.go:173-217 | outside that bound every profile has a run, built from its first push, whose next Render leaves the queue though no call before it did |
| `PlayoutRatios.RunHealthy` | internal/audio/playout.go:76-260 | as long as trims stay inside, every state of a run at fixed rates is in order, whatever the ratio |
| `JitterBuffer.RatioKeepsInside` | internal/audio/playout.go:181-217 | within the bound no Render of any buffer in order leaves the queue |
| `JitterBuffer.PushBounds` | internal/audio/playout.go:128-147 | after any push: level within the hard maximum, exactly the target after an overflow (and the gain at zero), and at most 2050 frames more than the maximum queued |
| `JitterBuffer.HeardEvenly` | internal/audio/playout.go:184-210 | what plays is read at evenly spaced positions with a linear fade-in that stops at one, all indices in range, and ends early only where the queue cannot be read |
| `JitterBuffer.TrimIsSilent` | internal/audio/playout.go:212-217 | whether the lazy trim happens makes no difference to what is played next |
| `JitterBuffer.TrimKeepsLevel` | internal/audio/playout.go:116-125 | nor to the buffered level |
| `JitterBuffer.RenderHealthy` | internal/audio/playout.go:151-226 | a render keeps whole frames, a position with history, gain, drift and target in range |
| `JitterBuffer.RunHealthy` | internal/audio/playout.go:76-260 | every state of every run of SetConfig, SetSource, Reset, Push and Render: whole frames, pos >= 1 and close to the front, |adj| <= 0.003, gain in [0, 1], target between its floor and its ceiling |
| `Listening.RenderPlays` | internal/audio/playout.go:184-210 | what a render writes begins with frames read from everything pushed so far, evenly on from where the reading stands, faded in from silence after a pause, as far as the pushed audio goes |
| `Listening.OneReading` | internal/audio/playout.go:76-226 | every run: the queue is the end of everything pushed since the format or a reset, read evenly; a render moves the reading by exactly the frames it plays, an overflow jumps to the target level, and nothing else moves it |
| `PlayoutBuffer.Buffer.SetConfig` | internal/audio/playout.go:76-83 | a new profile resets the target and keeps the queued audio |
| `PlayoutBuffer.Buffer.SetSource` | internal/audio/playout.go:87-97 | a changed format discards the queue, an unchanged one changes nothing |
| `PlayoutBuffer.Buffer.Push` | internal/audio/playout.go:128-147 | the specified push, with the overflow counted exactly when it jumps |
| `PlayoutBuffer.Buffer.PlayOut` | internal/audio/playout.go:184-210 | the playing loop writes exactly the specified frames and touches nothing beyond them |
| `PlayoutBuffer.Buffer.FadeTail` | internal/audio/playout.go:242-260 | the rest of the buffer is the last sample frame ramped down, then silence |
| `PlayoutBuffer.Buffer.StartUnderrun` | internal/audio/playout.go:228-238 | an underrun unprimes the buffer and raises the target by 10 ms up to its ceiling |
| `PlayoutBuffer.Buffer.Trim` | internal/audio/playout.go:212-217 | every trim is inside the queue |
| `PlayoutBuffer.Buffer.Relax` | internal/audio/playout.go:219-225 | the target falls again, in 5 ms steps, only ten seconds after the last underrun and the last fall, and never below the profile's |
| `PlayoutBuffer.Buffer.Render` | internal/audio/playout.go:151-226 | exactly frames * dstCh samples are written, they are the frames heard followed by the fade-out, everything after them is untouched, and the state moves as specified |
| `FileChunks.ChunkRoundTrip` | internal/filetransfer/filetransfer_windows_send.go:162-168 | a chunk payload is decoded to the id, file, offset and data it was made from |
| `FileChunks.ContiguousIsGenuine` | internal/filetransfer/filetransfer_windows_send.go:141-170 | every chunk of a gapless list holds the bytes of its file at its offset |
| `FileSend.StreamFile` | internal/filetransfer/filetransfer_windows_send.go:141-187 | one file: chunks of 1 to 32768 bytes without gaps from offset 0, whose bytes are what was read; complete exactly as far as the reads went, stopped exactly at the first cancelled check |
| `FileSend.FirstError` | internal/filetransfer/filetransfer_windows_send.go:156-187 | what counts as the contents of a file, the data that comes with its end included, and when it was read to its end, in terms of its reads |
| `FileSend.StreamFiles` | internal/filetransfer/filetransfer_windows_send.go:120-191 | a send emits its files in order, each from its start without gaps, and sends Done only when every file was read to its end and all of it was sent; nothing goes out before acceptance |
| `FileSend.SentIsGenuine` | internal/filetransfer/filetransfer_windows_send.go:134-191 | however a send ends, every chunk it emitted carries its id and the bytes of its file at its offset |
| `FileSenders.StepKeeps` | internal/filetransfer/filetransfer_windows_send.go:60-191 | every step of the goroutines that send and of the handlers that accept, cancel and clear keeps the invariant of the outgoing map |
| `FileSenders.SendingIsBounded` | internal/filetransfer/filetransfer_windows.go:135-155 | every interleaving: each channel of a send is closed at most once, chunks go out only after acceptance, and at most one after the cancellation |
| `FileSenders.EverySendAccountedFor` | internal/filetransfer/filetransfer_windows_receive.go:256-327 | every send is in the map, or overwritten by a later one with its id, or cleared by its own goroutine, or cancelled or about to be by the thread that took it out; an ended one is not in the map |
| `FileSenders.ClearsOnlyItself` | internal/filetransfer/filetransfer_windows_send.go:60-66 | an ending send removes at most its own entry, never a newer send with the same id |
| `FileSenders.AcceptAlone` | internal/filetransfer/filetransfer_windows_receive.go:256-327 | an acceptance under a known id reaches that send, whose goroutine may then go on |
| `FileSenders.CancelAlone` | internal/filetransfer/filetransfer_windows_receive.go:256-327 | a cancel under a known id takes that send out of the map and cancels it, and touches nothing else |
| `FileSenders.CancelAllTakes` | internal/filetransfer/filetransfer_windows_receive.go:303-327 | cancelling all empties the map in one lock section and leaves exactly its sends to be cancelled |
| `FileSenders.SendsOn` | internal/filetransfer/filetransfer_windows_send.go:141-187 | an accepted send that is not cancelled can always go on to its next chunk |
| `FileReceive.ChunkKeeps` | internal/filetransfer/filetransfer_windows_receive.go:192-212 | no chunk and no disk failure makes a file exceed its size or breaks the accepted prefix |
| `FileReceive.GoodChunkStored` | internal/filetransfer/filetransfer_windows_receive.go:192-212 | a chunk that goes on where its file ends so far, and fits, is stored: file, count and accepted bytes grow by exactly its data |
| `FileReceive.FinishedIsIntact` | internal/filetransfer/filetransfer_windows_receive.go:35-52 | a transfer that passes validation holds, in each file, exactly the accepted bytes, of exactly the offered size, with the sizes adding up |
| `FileReceive.FinishedIsFrozen` | internal/filetransfer/filetransfer_windows_receive.go:170-254 | after validation no chunk still on its way can change anything, even before the handles are closed |
| `FileReceive.ClosedIsFrozen` | internal/filetransfer/filetransfer_windows_receive.go:20-33 | nothing is accepted or written through closed handles |
| `FileReceive.ActiveRecv.Accept` | internal/filetransfer/filetransfer_windows_receive.go:192-212 | the lock section of handleChunk: verdict, disk contents and counters as specified for in-order, oversized, misplaced and failing writes |
| `FileReceive.ActiveRecv.CloseFiles` | internal/filetransfer/filetransfer_windows_receive.go:20-33 | every handle is closed and exactly the open ones are returned, in order |
| `FileReceive.ActiveRecv.ValidateComplete` | internal/filetransfer/filetransfer_windows_receive.go:35-52 | succeeds if and only if every file has its offered size and the sizes sum to the total modulo 2^64 |
| `FileTransfers.StepKeeps` | internal/filetransfer/filetransfer_windows_receive.go:101-325 | every lock section of every handler keeps the ownership and content invariant |
| `FileTransfers.ContentSafety` | internal/filetransfer/filetransfer_windows_receive.go:215-254 | any run of any handlers on any number of threads: when onComplete has fired, it fired once, the directory is there, the handles are closed and every file is exactly its accepted data, of its offered size, summing to the total |
| `FileTransfers.SingleOutcome` | internal/filetransfer/filetransfer_windows_receive.go:192-327 | a transfer is completed (one callback, directory kept) or aborted (no callback, directory removed), and nothing about it ever changes afterwards |
| `FileTransfers.NoWriteAfterClose` | internal/filetransfer/filetransfer_windows_receive.go:192-212 | once the handles are closed no step of any thread changes the files |
| `FileTransfers.OneOwner` | internal/filetransfer/filetransfer_windows_receive.go:215-294 | deletion from the map makes one thread the owner: no two threads hold a transfer, and a held one cannot be found |
| `FileTransfers.OwnerSettles` | internal/filetransfer/filetransfer_windows_receive.go:215-294 | the owner of a transfer can always go on, settles it within four steps of its own, and no other thread sets it back |
| `FileTransfers.NeverStuck` | internal/filetransfer/filetransfer_windows_receive.go:70-100 | in every state of every run every thread has a step to take |
| `FileTransfers.EveryOfferOwned` | internal/app/app_inbound.go:22-34 | with offers handled by one goroutine no transfer is ever overwritten in the map |
| `FileTransfers.FilesArrive` | internal/filetransfer/filetransfer_windows_receive.go:170-254 | end to end: whatever order, repetition or loss the chunks of one send suffer, a completed transfer holds of each file exactly the first `size` bytes the sender read |
| `FileDelivery.SendInOrder` | internal/filetransfer/filetransfer_windows_send.go:134-191 | the chunks of a complete send are in order for its files' sizes, and nothing is missing |
| `FileDelivery.SendCompletes` | internal/filetransfer/filetransfer_windows_receive.go:170-254 | every run: if all chunks of a complete send come in order without a disk error and only Done takes the transfer, then it is never aborted, and once settled it is completed, with one callback and the sender's files on disk |
| `FileHandling.ChunkStored` | internal/filetransfer/filetransfer_windows_receive.go:170-213 | from any reachable state the handler of a good chunk can run through, and stores it |
| `FileHandling.BadChunkEnds` | internal/filetransfer/filetransfer_windows_receive.go:192-296 | and that of a chunk that does not fit, or whose write fails, aborts its transfer |
| `FileHandling.DoneEnds` | internal/filetransfer/filetransfer_windows_receive.go:215-254 | the handler of Done completes a finished transfer with one callback and aborts any other |
| `FileHandling.CancelEnds` | internal/filetransfer/filetransfer_windows_receive.go:256-279 | the handler of Cancel aborts a live transfer |
| `FileHandling.SendArrives` | internal/filetransfer/filetransfer_windows_receive.go:101-254 | from any reachable state: offer, chunks in order and Done of a complete send end in a completed transfer whose files are the sender's; every other transfer, the map and the other threads are as before |
| `TransferNames.CandidateKeys` | internal/filetransfer/filetransfer_windows_send.go:52-57 | different attempt numbers give different case-folded names |
| `TransferNames.CandidateShape` | internal/filetransfer/filetransfer_windows_send.go:52-57 | the number goes before the last dot, so a name keeps its extension |
| `TransferNames.FilesInOrder` | internal/filetransfer/filetransfer_windows_send.go:68-87 | the files of the paths, in their order, and nothing else |
| `TransferNames.UniqueName` | internal/filetransfer/filetransfer_windows_send.go:41-58 | the loop ends, and the name is the wanted one or the first numbered candidate whose folded form is free |
| `TransferNames.BuildOffer` | internal/filetransfer/filetransfer_windows_send.go:68-87 | one name per file, in order, no two alike in any case; the offered total is the one the receiver will compute |
| `TransferNames.Normalize` | internal/filetransfer/filetransfer_windows_receive.go:54-68 | accepts if and only if all sanitized names are usable and no two are alike, and returns them in order |
| `OfferNames.AttemptIsRank` | internal/filetransfer/filetransfer_windows_send.go:41-58 | a file whose name is all extension (".txt") is offered under the number of files so far with its folded name |
| `OfferNames.AcceptedIff` | internal/filetransfer/filetransfer_windows_receive.go:54-68 | which built offers the same program accepts, in terms of the chosen files: all but those in which n or more files share a folded name that is all extension and another is called "(n)" and that name, n >= 2 |
| `OfferNames.Exchange` | internal/filetransfer/filetransfer_windows_send.go:68-87 | building an offer and normalizing it at the other end: refused exactly in that case, else the received names are the sanitized ones |
| `OfferNames.UnchangedNamesAccepted` | internal/filetransfer/filetransfer_windows_receive.go:54-68 | the receiver changes no name of an offer if and only if no name that is all extension repeats an earlier file's folded name, and then it accepts |
| `OfferNames.FilesAreTidy` | internal/filetransfer/filetransfer_windows_send.go:19-30 | sanitizeTransferName on names of files: fixed on what it returns and on every numbered name, but for the leading space of one without a stem |
| `OfferNames.TrimmedTwin` | internal/filetransfer/filetransfer_windows_send.go:19-58 | such offers are built: for every clean name that is all extension, two files of that name and one called "(2)" and that name are offered under names the receiver refuses |
| `SessionSlot.Session.Close` | internal/transport/transport.go:57-64 | closing takes effect once, however often it is called |
| `SessionSlot.Transport.InstallSession` | internal/transport/transport_lifecycle.go:181-191 | succeeds exactly on a free slot |
| `SessionSlot.Transport.LeaveLoop` | internal/transport/transport_session.go:13-25 | frees the slot and announces the disconnection exactly if the slot still holds this session; closes it in any case |
| `SessionSlot.Transport.Disconnect` | internal/transport/transport_lifecycle.go:289-301 | empties the slot; the session is closed and announced exactly if there was one |
| `SessionSlot.AtMostOneActive` | internal/transport/transport_lifecycle.go:181-231 | every interleaving: a session is active exactly while it is in the slot |
| `SessionSlot.CallbacksMatch` | internal/transport/transport_lifecycle.go:193-301 | a losing install gets no callback; an installed session gets OnConnect once, and OnDisconnect once if and only if it was cleared, by the thread that cleared it, after it was closed |
| `SessionSlot.OneNotifier` | internal/transport/transport_lifecycle.go:289-301 | no two threads are about to announce the same disconnection |
| `SessionSlot.OnlyItsOwnLoopClears` | internal/transport/transport_session.go:13-25 | the slot is emptied only by Disconnect or by the read loop of the very session in it: an exiting loop never clears a newer session |
| `SessionSlot.NeverReenters` | internal/transport/transport_lifecycle.go:181-301 | a session that was cleared or refused never enters the slot again |
| `SessionHandling.AlwaysAttended` | internal/transport/transport_session.go:12-35 | every run: the session in the slot has a thread that announces it, reads for it or is about to take it out, so no exiting loop leaves its session behind |
| `SessionHandling.ExitFrees` | internal/transport/transport_session.go:13-25 | the next step of a loop that has ended frees its own slot, and only that |
| `SessionHandling.ConnectAlone` | internal/transport/transport_lifecycle.go:193-231 | a connection that finds the slot free gets it and one OnConnect |
| `SessionHandling.LoopAlone` | internal/transport/transport_session.go:12-35 | a loop that ends frees the slot, closes its session and announces it, once |
| `SessionHandling.LateLoopAlone` | internal/transport/transport_session.go:13-25 | a loop whose session was taken out before only closes it |
| `SessionHandling.DisconnectAlone` | internal/transport/transport_lifecycle.go:289-301 | Disconnect takes the session out, closes and announces it |
| `SessionHandling.StopAlone` | internal/transport/transport_lifecycle.go:109-123 | Stop closes the session and leaves the slot and the announcement to its read loop |
| `SessionSlot.DisconnectBeforeConnect` | internal/transport/transport_lifecycle.go:218-301 | OnDisconnect has been called for a session and OnConnect has not, exactly when a Disconnect call has taken it out of the slot and announced it before its installer came to OnConnect |
| `SessionSlot.ConnectFirst` | internal/transport/transport_lifecycle.go:218-301 | so a session that no Disconnect call takes out always has OnConnect first |
| `SessionSlot.DisconnectCanOvertake` | internal/transport/transport_lifecycle.go:218-229 | such a run exists: two threads, six steps |
| `RateLimiter.Prune` | internal/transport/transport.go:131-137 | the in-place filter keeps exactly the times after the cutoff, in order |
| `RateLimiter.Limiter.ConnRateLimited` | internal/transport/transport.go:118-145 | refuses exactly if five recent times are stored; the key's new times as specified, every other key untouched though slices are filtered and extended in place |
| `RateLimiter.Limiter.Clean` | internal/transport/transport.go:148-174 | a cleaning tick prunes every key in place and removes exactly the keys left without times |
| `RateLimiter.CleanForgets` | internal/transport/transport.go:148-174 | cleaning forgets exactly the keys without a recent time, and of the others everything older |
| `RateLimiter.StoredIsRecent` | internal/transport/transport.go:118-174 | over any run with a clock that does not go back, cleaning anywhere: what is stored is the recent part of the true history, now and for every later moment |
| `RateLimiter.RefusedIff` | internal/transport/transport.go:118-145 | a connection is refused if and only if five were admitted for its key in the thirty seconds ending with it |
| `RateLimiter.SixSpanWindow` | internal/transport/transport.go:118-145 | any six admissions in a row of one key span at least thirty seconds |
| `RateLimiter.AtMostFive` | internal/transport/transport.go:118-174 | any half-open thirty-second window holds at most five admissions per key |
| `RouteCache.SameAdapters` | internal/link/cache.go:133-157 | the nested comparison is exactly equality of what the adapters say |
| `RouteCache.RouteCache.AdaptersLocked` | internal/link/cache.go:78-97 | the cached snapshot, or a fresh one after its time, by force or on change |
| `RouteCache.RouteCache.StoreRoute` | internal/link/cache.go:117-123 | a route is stored exactly if the snapshot it was resolved against is still the current slice |
| `RouteCache.SameAdaptersKeepRoutes` | internal/link/cache.go:87-94 | an enumeration drops the routes if and only if it finds something else; finding the same keeps the snapshot's identity |
| `RouteCache.StoredRouteAnswers` | internal/link/cache.go:99-123 | a stored route answers its address for ten seconds, and no longer, while the snapshot is fresh or found unchanged |
| `RouteCache.HitAnswersAtOnce` | internal/link/cache.go:99-116 | a lookup that hits answers without resolving, and rightly |
| `RouteCache.StoresKeeps` | internal/link/cache.go:117-131 | the identity test is good enough: what is stored was resolved against adapters equal to the current ones |
| `RouteCache.StoredRoutesAgree` | internal/link/cache.go:78-124 | any interleaving of lookups, forced refreshes and adapter changes: every stored route is what resolving against the latest enumeration gives |
| `RouteCache.LookupSeesLatest` | internal/link/cache.go:99-116 | every lookup answers from, or goes on to resolve against, the latest enumeration, less than five seconds old |
| `RouteCache.AnswersAgree` | internal/link/cache.go:99-124 | every answer, cached or not, agrees with resolving directly |
| `RemoteInput.KeyState.Record` | internal/inputstate/remote_input_state.go:15-29 | keys are tracked up to the extended flag |
| `RemoteInput.KeyState.ReleaseAll` | internal/inputstate/remote_input_state.go:31-53 | exactly the pressed keys are returned, once each and in order, and none stays pressed |
| `RemoteInput.SortedIsUnique` | internal/inputstate/remote_input_state.go:41-49 | the order of released keys is determined by the set of pressed ones |
| `RemoteInput.NormalizedIsSame` | internal/inputstate/remote_input_state.go:59-62 | a key message presses the same physical key as its tracked form |
| `RemoteInput.StepKeeps` | internal/app/app_lifecycle.go:39-195 | every step of every handler, release path and watchdog keeps the tracking invariant |
| `RemoteInput.HeldIsAccountedFor` | internal/app/app_frames.go:43-96 | at every moment of every interleaving, whatever injected input holds down is tracked or about to be released by the lock's holder |
| `RemoteInput.SettledOutsideLock` | internal/app/app_lifecycle.go:129-195 | outside remoteInputMu: held input is tracked, the fast-path flag says exactly whether anything is tracked, and then the deadline is set and the timer runs or the watchdog is at work |
| `RemoteInput.ReleaseLeavesNothing` | internal/app/app_lifecycle.go:93-127 | after the ups of any release nothing injected is held and nothing is tracked |
| `RemoteInput.ReleaseEnds` | internal/app/app_lifecycle.go:93-127 | every run: until a release is through, each of its own steps brings it exactly one closer, no other thread sets it back and it always has a step to take, so it ends after one step per tracked key or button and three more |
| `RemoteInput.LooseTouch` | internal/app/app_frames.go:57-65 | touching the watchdog without the lock never spoils the work of the lock's holder |
| `RemoteInput.PauseHolds` | internal/app/app_lifecycle.go:39-83 | a pause lasts until a wake, a new edge configuration or a reset, and meanwhile no arriving input gets through |
| `InputHandling.DownSince` | internal/app/app_frames.go:32-96 | every run: a key or button is down exactly if some step pressed it and none since let it up |
| `InputHandling.InputAlone` | internal/app/app_frames.go:32-96 | a message that is let in leaves its key or button tracked and down, or untracked and up, and gives the watchdog two seconds exactly if anything is tracked |
| `InputHandling.WakeAlone` | internal/app/app_lifecycle.go:53-73 | the wake signal is always let in, ends a pause and lets everything up |
| `InputHandling.ReleaseAlone` | internal/app/app_lifecycle.go:75-127 | a release can always run through: everything is let up, nothing stays tracked, and control is paused, reset or left alone as asked |
| `InputHandling.WatchdogReleases` | internal/app/app_lifecycle.go:158-195 | past its deadline, with no touch in between, the watchdog lets everything up |
| `ControlledInput.Input.Touch` | internal/app/app_lifecycle.go:129-152 | deadline, timer and fast-path flag are set exactly if something is tracked |
| `ControlledInput.Input.HandleKey` | internal/app/app_frames.go:66-96 | record, inject, touch: tracking still covers what is held and the flags say so |
| `ControlledInput.Input.HandleClick` | internal/app/app_frames.go:32-52 | the same for buttons; other buttons are neither tracked nor pressed |
| `ControlledInput.Input.Watchdog` | internal/app/app_lifecycle.go:158-195 | releases exactly what has been idle past its deadline; otherwise nothing changes and the timer runs again exactly while something is tracked |
| `ControlledInput.Input.Release` | internal/app/app_lifecycle.go:93-127 | the loops release exactly what was tracked and the modifiers; if tracking covered what was held, nothing is held afterwards |
| `Framing.WriteFrame` | internal/protocol/protocol.go:82-109 | what reaches the writer is the frame and nothing of a recycled buffer's old contents; a short write is an error; large buffers are not recycled |
| `Framing.Source.ReadFull` | internal/protocol/protocol.go:120-138 | a full read returns exactly the next n bytes however the stream delivers them, or tells a clean end from a torn one |
| `Framing.ReadFrameLimit` | internal/protocol/protocol.go:120-141 | reading a frame gives what parsing the stream's bytes gives, whatever their pieces |
| `Framing.ParseWritten` | internal/protocol/protocol.go:82-141 | a written frame is read back and leaves the rest; a payload over the limit is the only thing refused |
| `Framing.ReadBack` | internal/protocol/protocol.go:82-141 | for every list of frames within the limit and every fragmentation, repeated reads return the same list and then the end of the stream |
| `Framing.WireInjective` | internal/protocol/protocol.go:82-109 | different lists of frames are different on the wire |
| `Codecs.MoveCodec` | internal/protocol/protocol.go:144-163 | mouse moves: both directions, and malformed exactly if not 8 bytes |
| `Codecs.ScrollCodec` | internal/protocol/protocol.go:188-203 | scrolls: both directions |
| `Codecs.KeyCodec` | internal/protocol/protocol.go:206-229 | keys: both directions |
| `Codecs.ClickCodec` | internal/protocol/protocol.go:166-185 | every click round-trips; a payload does exactly if its second byte is 0 or 1 |
| `Codecs.ClipboardCodec` | internal/protocol/protocol.go:265-285 | clipboard text with its sequence number: both directions |
| `Codecs.HelloRoundTrip` | internal/protocol/protocol.go:288-321 | a hello is decoded as it was encoded if and only if its first three fields contain no newline |
| `WireFormat.FrameLayout` | internal/protocol/protocol.go:82-109 | a frame is its kind, its length in four bytes, most significant first, and its payload |
| `WireFormat.MoveLayout` | internal/protocol/protocol.go:148-203 | a move is dx and dy, a scroll its distance: two's complement, most significant byte first |
| `WireFormat.KeyLayout` | internal/protocol/protocol.go:171-218 | a key is virtual key, scan code and flags; a click the button and 1 for down |
| `WireFormat.ChunkLayout` | internal/filetransfer/filetransfer_windows_send.go:162-168 | a chunk is transfer, file, offset in eight bytes and data |
| `WireFormat.FormatLayout` | internal/audio/format.go:149-158 | a PCM format is laid out as WAVEFORMATEX, little endian |

## Left out

- PcmEncode.EncodePCM: the bit pattern of a float32 sample is a parameter.
- Playout.Play: float32 and float64 rounding of positions, gains and samples; all real numbers here.
- PlayoutBuffer.Buffer.Render: requires that its trim stays inside the queue; where it does not, the source indexes past its queue, and `PlayoutRatios.SafeRates` says at which rates that can happen. The scratch slices it reuses are not modelled.
- PlayoutRatios.SafeRates: the rates stay the same throughout a run; a device that changes its rate in the middle is covered only by `JitterBuffer.RunHealthy`.
- AudioCapture.OutboundStream.Configure: bitrate and complexity settings of the encoder, which do not change what it is given.
- AudioSession.AudioAgreement: holds within one session and with a sender call and the enqueueing of its frames as one step; `reconfigureCaptures` and `startCapture` do not guarantee that, see `AudioRace`. The flags that gate playback per stream are not modelled.
- AudioRace.CarelessPushMisread: speaks of continuations in which decoders can be created and the Opus decoder answers as it likes.
- MouseLane.Lane.Enqueue: a queued (0,0) wake may be absorbed by coalescing, so displacement is conserved but delivery of wakes is not claimed.
- SendMux.BoundedWaiting: counts frames and writer steps, not time; send errors, heartbeat timing, the stall watchdog and the statistics loop are not part of this model.
- EnqueueSend.Mux.EnqueueHigh: ending the session is a flag here; that the transport may already have a newer session is not modelled.
- FileSend.StreamFiles: sees the accept and cancel channels as an answer and a list of checks; their interleaving with the handlers is `FileSenders`, which in turn counts chunks and does not look into them.
- FileTransfers.ContentSafety: without the progress dialog, whose own unconditional delete from the map would break single ownership; JSON, directory names and the clipboard are left out. Done may overtake queued chunks (it travels in the reliable lane), so that a send completes is claimed only where it does not (`FileDelivery.SendCompletes`, `FileHandling.SendArrives`).
- TransferNames.BuildOffer: `sanitizeTransferName` is a parameter because it uses the platform's path rules; case folding is a parameter that leaves digits, spaces and parentheses alone.
- OfferNames.AcceptedIff: case folding also leaves dots alone and makes none of these characters from others; the sanitizer is any that behaves as `FilesAreTidy` proves of sanitizeTransferName for names without separators and colons, with filepath.Base the identity on those. JSON encoding of the names is left out.
- RateLimiter.StoredIsRecent: needs a clock that does not go back in the order the lock is taken; the source reads the clock before it takes the lock.
- SessionSlot.CallbacksMatch: TLS, pairing and authorisation decide only whether a handshake succeeds; the content of frames read is not modelled.
- RouteCache.AnswersAgree: `resolve` is a function of the address and the adapters; changes of the operating system's routes behind an unchanged adapter list, which entry expiry is for, are not modelled.
- RemoteInput.SettledOutsideLock: a physical key is its virtual-key code, scan code and extended flag as injected; buttons beyond the third inject nothing. Cursor movement, scrolling and text hold nothing down.
- Pairing, discovery, Bluetooth, UPnP, Tailscale, tray, settings, health monitor, clipboard polling, input hooks and the frontend: not part of this model.
