# VehicleSense: a verified model

This project models the parts of the VehicleSense repository that carry its promises, in Dafny, and
proves those promises. There are five parts.

- **The durable spool and its delivery protocol** (firmware). A sample becomes a file on a memory card
  and stays there until the broker's PUBACK (section 4.3.2 of MQTT Version 3.1.1). `Spool` describes the
  card and the cached counters as a value with one function per operation, `OfflineTelemetryQueue` is the
  queue object over a card whose operations may fail, `Delivery` is the protocol of main loop, event
  thread, broker and power cuts as steps over one state, `SpooledDelivery` shows that the spool carries
  out the queue steps, and `SecureMqttClient` and `AppController` are the code that takes part in it:
  every method says which main-loop steps it added to the protocol run, with any event-thread steps in
  between, and what that did to the samples. `PowerCuts` shows that every state the card passes through
  inside an operation is the card of a prefix of the run that was made, so the results about all runs,
  whose power cuts come between steps, also hold after a cut at any disk step, and a cut takes no record
  that the operation does not take itself. `SampleOrigin` follows every record back to what was read when
  its sample was stored, and `RecordChecksum` shows that the hash of a record sees every changed byte.
- **The acoustic path** (firmware). `Fft` and `AudioFeatureExtractor` prove the in-place transform
  against the discrete Fourier transform; `AcousticFeatures` and `AcousticPipeline` follow the features
  through the accumulator and the classifier to the check of the message builder; `AcousticAlerts` is the
  alert evaluator on a clock that wraps. `FrameMeaning`, `AggregateMeaning`, `ClassifierRegions` and
  `AlertTiming` say what these compute as equations, sums, regions and times.
- **Trips and ingestion** (backend). `Trips` is the trip state machine with its tables, `TripProperties`
  and `TripWindows` say what its rows mean and `TripSteps` what one sample does, `Ingestion` is the
  transaction, the duplicate check and the manual acknowledgement, and `RowTrips` says which messages get
  rows and that the trips are those of the rows. `EndToEnd` joins device and backend.
- **The simulator's replay queue**: `ReplayQueue`, with a second thread between any two lock sections.
- **Device status and its alerts** (backend): `DeviceStatus`, and `StatusAlerts` for what reports and
  scans do to rows and alerts.

`DeviceIdentity`, `OfflineQueuePolicy`, `Clock`, `Bits` and `ComplexNumbers` hold what these share.

## How to read it

Code that changes state is a class whose methods are proved against functions on values; the theorems
are about those functions and about all runs of them. Failing hardware, the network and other threads
are choices (`if *`, a function that is not restricted, or a step of a run). The card keeps a ghost history of every state it passed
through, so that a power cut at any moment is a state of that history, and a ghost count of the
operations it refused, so that contracts can say that an operation fails only if the card does.

Reals stand for `float` and `double`. Logarithm, exponential, square root, cosine and the roots of unity
are parameters with a few stated facts (`AcousticFeatures.Faithful`, `FrameMeaning.Logarithms`,
`Fft.Roots`): the root is the non-negative solution of its square, the logarithm does not decrease, grows
by one for ten times the argument and is undone by the power of ten, the natural one by the exponential,
the roots of unity have modulus one, base(2) is -1 and base(2L) squared is base(L).

## Where the code does not do what is written about it

- docs/storage.md says that a file is removed only after the PUBACK of its record. Ids start again at 1
  when the queue empties, so an acknowledgement that is still on its way can meet a new record with the
  old id. `Delivery.UnreceivedSampleLost` is a run in which a sample is removed that was never sent;
  `Delivery.OnlyStaleAcksLose` says exactly which steps lose a sample, and `Delivery.NothingLost` that
  none does while the queue never empties with a publish outstanding.
- The alert cooldown uses time zero for "never". `AcousticAlerts.SentinelRetriggers` is a run with two
  triggers one millisecond apart, and `AcousticAlerts.RetriggerInsideCooldown` says exactly when that
  happens.
- Trips of a vehicle may overlap. `TripWindows.DisjointIfAndOnlyIfClear` says exactly when they do not:
  if and only if, whenever a sample opened a trip, the motion note of its device was not before the last
  point of any earlier trip of the vehicle. Two devices of one vehicle can break that
  (`TripWindows.SharedVehicleOverlaps`), and so can one device whose times go back, as they do when a
  sample without a valid clock is stamped on arrival (`TripWindows.GoingBackOverlaps`). With one device
  per vehicle and times that do not decrease it always holds: `TripWindows.TripsAreDisjoint`.
- docs/storage.md says that mounting the spool is retried periodically. A due retry mounts a card that
  is present, with its directory and a free record id, if and only if the queue has a boot number, and it
  has one exactly when it was begun at boot, which needs the storage to be ready by then:
  `OfflineTelemetryQueue.Queue.Begin` and `AppController.Controller.Maintain` state that condition, and
  `AppController.CardArrivesLate` is the run in which the card comes after the boot.
- docs/security.md calls ingestion idempotent. A repeat under a key that another sender used first still
  registers its own sender, and nothing else: `Ingestion.RepeatChangesNothing` says exactly when, and
  `Ingestion.StrangerIsRegistered` gives two such messages.
- A queue mounted from a card with a damaged record that cannot be removed does not know of that file:
  after `OfflineTelemetryQueue.Queue.Begin` the cache is right if and only if the card refused no removal,
  and `OfflineTelemetryQueue.TornFileStays` is a card on which it is wrong.

## Model

| member | source | states |
|---|---|---|
| Delivery.NothingVanishes | src/app/AppController.cpp:258-307 | in every interleaving of main loop, event thread, broker and power cuts, each accepted sample is on disk, delivered and acknowledged, dropped and counted, or lost |
| Delivery.OnlyStaleAcksLose | src/storage/OfflineTelemetryQueue.cpp:326-343 | a step loses a sample if and only if it acts on an acknowledgement issued before the queue last emptied that names the present, unacknowledged head |
| Delivery.AckMeetsItsRecord | src/app/AppController.cpp:268-280 | an acknowledgement whose id is the head's removes the record it was sent for if and only if the queue has not emptied since the publish |
| Delivery.NothingLost | src/storage/OfflineTelemetryQueue.cpp:380-383 | when the queue never empties with a publish outstanding, no run loses a sample |
| Delivery.UnreceivedSampleLost | src/app/AppController.cpp:266-307 | a run, built step by step, in which a PUBACK between two reads leads to the removal of a sample that was never sent |
| Delivery.DeliveryIsInOrder | src/storage/OfflineTelemetryQueue.cpp:231-292 | when the broker receives a copy of a sample, every earlier accepted sample was received, dropped or lost before, across retries, reconnects and reboots |
| Delivery.UnmarkedIsFirst | src/storage/OfflineTelemetryQueue.cpp:273-324 | a copy without the replayed mark is the first copy of its sample that ever leaves the device, while fewer than 2^32 attempts were made |
| Delivery.MarkingRule | src/storage/OfflineQueuePolicy.h:28-32 | in every run a copy is unmarked exactly when its sample was not deferred, is of this boot, and its true number of attempts is a multiple of 2^32 |
| Delivery.InvRun | src/app/AppController.cpp:258-307 | the protocol invariant (queue order, accounting, worth of tickets, order of deliveries, stamps) holds after every run |
| Delivery.ReceiptsAreGenuine | src/app/AppController.cpp:258-307 | whatever the broker received is the payload of an accepted sample as it was accepted, or the same with the replayed mark |
| Delivery.RunGrows | src/app/AppController.cpp:258-307 | over any stretch of a run, the main loop's steps alone account for what was accepted, and for whether anything was dropped or lost; accepted samples are never changed |
| AppController.Controller.ProcessSecureMqtt | src/app/AppController.cpp:258-307 | one pass extends the run it found by the steps of a pass, in their order, with event-thread steps in between; an acknowledgement removes the head if and only if it names it, and the head is looked at if and only if the client was connected when asked, nothing was pending, 250 ms are over and a record is left, both unless the card refuses; it is then stamped and published, or dropped if it cannot be sent; the publish is noted if and only if the library was offered it and took it, and it is not offered only when the connection was lost meanwhile or a publish was pending; nothing is lost but to an acknowledgement that was stale when the pass began; every disk state on the way is the card of a prefix of the run; samples keep their origin |
| AppController.DueIsExactly | src/app/AppController.cpp:284-288 | in true times a pass sends exactly when it read a connection and nothing pending, 250 ms have passed and a record is left |
| AppController.Controller.UpdateMqtt | src/communication/SecureMqttClient.cpp:98-132 | an update gives up exactly an overdue publish and touches neither the queue nor what is known of samples |
| AppController.Controller.HandleAck | src/app/AppController.cpp:273-280 | the run grows by that one protocol step; the head file goes exactly when it says removed, which unless the card refuses is when the token names the head; otherwise nothing changes at all |
| AppController.Controller.OfferHead | src/app/AppController.cpp:289-293 | a successful peek is the protocol's offer, and the buffer holds the head's payload with the same marking; unless the card refuses, the head is offered if and only if it can be sent and dropped otherwise; the run says which |
| AppController.Controller.MarkHead | src/app/AppController.cpp:296-296 | the run grows by the mark step, which fails only if the card does, and on the card only the attempt of a record changes |
| AppController.Controller.ReplayHead | src/app/AppController.cpp:289-306 | the run grows by an offer, stamp and publish in that order, or their failures; nothing is accepted or lost, at most the head is dropped, and the card keeps every other record as it was |
| AppController.Controller.StoreSample | src/app/AppController.cpp:217-226 | the run grows by the evictions, which drop exactly the first records, and by one acceptance with this payload exactly when storing succeeds; the sample is stored as deferred if and only if the client was not connected, a publish was pending, or the queue held a record; unless the card refuses, every acceptable sample is stored |
| SampleOrigin.UnmarkedExactly | src/app/AppController.cpp:217-221 | in every run of the main loop the copy about to be sent is unmarked if and only if its sample was stored while the client was connected, with nothing pending, into an empty queue, and it is sent in the same boot with a number of earlier attempts that is a multiple of 2^32 |
| SampleOrigin.EntryOrigin | src/storage/OfflineTelemetryQueue.cpp:171-229 | every record of the queue comes from one storing step, with its payload, deferral and boot |
| AppController.Controller.Maintain | src/app/AppController.cpp:131-131 | the run grows by drops of records that were expired, from the front, and at most one mount or unmount; a due retry mounts if and only if there is a boot number, the card, its directory and a free id |
| AppController.Controller.AfterPowerCut | src/app/AppController.cpp:58-61 | the run grows by the power cut, and by a mount exactly when the queue was begun and the card can be mounted; no record changes, pending publish and acknowledgement are gone, and samples keep their origin |
| AppController.CardArrivesLate | src/app/AppController.cpp:58-61 | the input that fails: a queue that was not begun at boot stays unavailable through any retries with the card present; one that was begun is mounted by the first retry exactly when the card can be |
| PowerCuts.NothingVanishesInAnyCut | src/storage/OfflineTelemetryQueue.cpp:69-388 | the card after any disk step of any operation is the card of a prefix of the run made; in it every sample is accounted for, nothing is dropped or lost that the operation does not drop or lose, and a sample on disk before and after is on disk at the cut |
| PowerCuts.OperationCuts | src/storage/OfflineTelemetryQueue.cpp:171-229 | each disk state of an operation that drops n records and perhaps adds one is the card after some of those drops, or after all of them and the new record |
| PowerCuts.DropCutIsARun | src/storage/OfflineTelemetryQueue.cpp:95-123 | a card that lacks at most n of the first records is the card after so many of n drops of the run |
| PowerCuts.HeadCuts | src/storage/OfflineTelemetryQueue.cpp:231-292 | each disk state of an operation that drops at most the head is the card before or after it |
| PowerCuts.FifoDetermines | src/storage/OfflineTelemetryQueue.cpp:46-65 | two cards of intact records with the same FIFO are the same card |
| SecureMqttClient.Client.PublishTelemetry | src/communication/SecureMqttClient.cpp:227-266 | the library is offered the message exactly when no publish is pending and there is a connection, and publishing succeeds exactly when it takes it; a taken publish is noted as pending with its token and the clock reading; the queue is untouched, and a PUBACK between the two is not recognised |
| SecureMqttClient.PublishAndWait | src/communication/SecureMqttClient.cpp:227-266 | a publish noted at a non-zero reading, over any updates less than a turn of the clock later and any events in between: while it is pending none of them came 30 seconds or more after it, and only such an update gave it up |
| SecureMqttClient.OverdueIsExact | src/communication/SecureMqttClient.cpp:399-414 | in true time less than one turn of the clock away a publish is overdue exactly when 30 seconds have passed |
| SecureMqttClient.Client.HandlePublished | src/communication/SecureMqttClient.cpp:287-298 | the PUBACK of the pending message moves its token into the slot; that of another telemetry message only leaves the outbox; that of any other message changes nothing |
| SecureMqttClient.Client.TakeTelemetryAck | src/communication/SecureMqttClient.cpp:300-312 | the slot is emptied and its token returned exactly when it was full |
| SecureMqttClient.Client.ExpirePendingTelemetry | src/communication/SecureMqttClient.cpp:399-414 | a pending publish is given up exactly when it is noted at a non-zero reading and 30 seconds old on the wrapping clock |
| SecureMqttClient.Client.EventThread | src/communication/SecureMqttClient.cpp:143-157 | whatever the event thread does, it changes neither the queue nor the main loop's place, and never creates a pending publish |
| SecureMqttClient.Client.HandleConnected | src/communication/SecureMqttClient.cpp:187-201 | a connection resets the delay and leaves the pending publish alone |
| SecureMqttClient.Client.HandleDisconnected | src/communication/SecureMqttClient.cpp:203-211 | a lost connection schedules the next attempt and leaves the pending publish alone |
| SecureMqttClient.Client.Update | src/communication/SecureMqttClient.cpp:98-132 | an attempt is made exactly when it is due, and a refused one is scheduled after the current delay |
| SecureMqttClient.BackoffIsCappedDoubling | src/communication/SecureMqttClient.cpp:213-225 | after k failures in a row the delay is 5 seconds times 2^k, at most 30 seconds |
| Clock.ReachedIsExact | src/communication/SecureMqttClient.cpp:17-19 | the signed comparison of wrapped times is right for all times less than half a turn apart |
| SpooledDelivery.RemovalRefines | src/storage/OfflineTelemetryQueue.cpp:361-388 | removing the head file removes the head of the protocol queue and gives the same next id |
| SpooledDelivery.AcknowledgeRefines | src/storage/OfflineTelemetryQueue.cpp:326-343 | the guard of acknowledge holds exactly when the protocol's match does, and its effect is the protocol's |
| SpooledDelivery.AppendRefines | src/storage/OfflineTelemetryQueue.cpp:171-229 | a stored record is the protocol's newly accepted entry |
| SpooledDelivery.OfferRefines | src/storage/OfflineTelemetryQueue.cpp:273-292 | what peek returns about the head is what the protocol offers |
| SpooledDelivery.MarkRefines | src/storage/OfflineTelemetryQueue.cpp:294-324 | the rewritten header is the protocol's stamped head |
| SpooledDelivery.MountRefines | src/storage/OfflineTelemetryQueue.cpp:69-93 | mounting a card of intact records brings back the same queue and the same next id |
| OfflineTelemetryQueue.Queue.Enqueue | src/storage/OfflineTelemetryQueue.cpp:171-229 | unless the card fails a sample is stored exactly when the queue is ready, it has 1 to 2047 characters and an id is left, after exactly the evictions it needed; every disk state on the way lacks at most the evicted records, with the new record only at its end |
| OfflineTelemetryQueue.Queue.EnsureCapacity | src/storage/OfflineTelemetryQueue.cpp:345-359 | evicts the shortest prefix that makes room, stopping early only when the card refuses a removal, and answers whether there is room |
| OfflineTelemetryQueue.EnqueuedIsFifo | src/storage/OfflineTelemetryQueue.cpp:171-229 | a stored sample is the last of the FIFO, each eviction was counted, limits are kept, and within limits one record is evicted when the queue is full and none otherwise |
| OfflineTelemetryQueue.RecoveryAfterPowerCut | src/storage/OfflineTelemetryQueue.cpp:69-93 | mounting the card after a power cut at any disk operation of storing, acknowledging, peeking, expiring or remounting gives a coherent queue that lacks at most the first records the operation takes: those evicted, the one head, or those expired |
| OfflineTelemetryQueue.Queue.Begin | src/storage/OfflineTelemetryQueue.cpp:69-93 | mounting succeeds if and only if there is a boot number, the card, its directory and a free id; every intact record survives it and is counted, every other file is counted as dropped; the cache tells the truth if and only if the card refused no removal |
| OfflineTelemetryQueue.TornFileStays | src/storage/OfflineTelemetryQueue.cpp:125-169 | the input on which the cache is wrong: a card with one torn file, whose removal the card refuses; if it is removed the queue is coherent |
| OfflineTelemetryQueue.Queue.ScanRecords | src/storage/OfflineTelemetryQueue.cpp:125-169 | the scan computes count, bytes, smallest id and next id of the intact records and counts every other file as dropped |
| OfflineTelemetryQueue.IntactIsExactly | src/storage/OfflineTelemetryQueue.cpp:125-169 | the scan keeps exactly the files with the right magic and version, their own id, and a payload of the length they state, 1 to 2047 |
| OfflineTelemetryQueue.Queue.Peek | src/storage/OfflineTelemetryQueue.cpp:231-292 | the buffer holds the stored payload, marked exactly when the policy says so, and the queue is unchanged; otherwise at most a head that could not be read or sent is dropped, and counted |
| RecordChecksum.ByteChangesHash | src/storage/OfflineTelemetryQueue.cpp:37-45 | changing one byte of a payload changes its hash |
| RecordChecksum.DamagedIsRefused | src/storage/OfflineTelemetryQueue.cpp:231-292 | a stored record of whose payload one byte was changed is never offered |
| OfflineTelemetryQueue.StoredIsOffered | src/storage/OfflineTelemetryQueue.cpp:171-292 | the round trip through the card: a stored sample goes to the end of the FIFO, and whenever it is the head it is offered with its own payload in the same boot, marked when it was deferred or in any other boot; it is expired exactly when it was stored with a clock that is now more than seven days ahead |
| OfflineTelemetryQueue.StoredBecomesHead | src/storage/OfflineTelemetryQueue.cpp:171-388 | once the records in front of a stored sample have left it is the head, however many they are |
| OfflineTelemetryQueue.Queue.MarkAttempted | src/storage/OfflineTelemetryQueue.cpp:294-324 | changes the attempt counter and the last-replayed flag of that record in one disk step, and nothing else; it fails for an existing record only if the card does |
| OfflineTelemetryQueue.Queue.Acknowledge | src/storage/OfflineTelemetryQueue.cpp:326-343 | unless the card refuses, removes the head for exactly its own id, counts a replay and no drop, in one disk step; any other id changes nothing |
| OfflineTelemetryQueue.AcknowledgedIsDequeue | src/storage/OfflineTelemetryQueue.cpp:326-343 | an acknowledgement takes the first record off the FIFO, keeps the cache coherent, and counts a replay exactly when the last publish was one |
| OfflineTelemetryQueue.Queue.FindOldest | src/storage/OfflineTelemetryQueue.cpp:390-408 | the directory loop finds the smallest id, or zero in an empty directory |
| OfflineTelemetryQueue.Queue.RemoveHead | src/storage/OfflineTelemetryQueue.cpp:361-388 | the head file and its share of the cached counters go together, or nothing changes because the card refused |
| OfflineTelemetryQueue.Queue.Update | src/storage/OfflineTelemetryQueue.cpp:95-123 | a missing card unmounts, a retry is made no sooner than 30 seconds after the last and mounts exactly when the card can be mounted, and due maintenance drops only expired records, from the front, and unless the card refuses leaves a head that is not expired |
| OfflineTelemetryQueue.Queue.DropExpired | src/storage/OfflineTelemetryQueue.cpp:113-122 | each dropped record was expired, the remaining head is not, a refused removal unmounts, and no disk state on the way lacks more than the expired records |
| OfflineTelemetryQueue.AgeDecides | src/storage/OfflineQueuePolicy.h:41-49 | a record counts as too old if and only if its stamp and the clock are both non-zero and the clock is more than 604800 seconds past the stamp |
| OfflineTelemetryQueue.UnstampedIsKept | src/storage/OfflineTelemetryQueue.cpp:113-122 | no maintenance at any time drops a record that was stored without a clock |
| OfflineTelemetryQueue.YoungHeadYoungQueue | src/storage/OfflineTelemetryQueue.cpp:431-443 | when stamps do not decrease and the head has one, a young head means that no record is expired |
| Spool.RemoveOldestIsDequeue | src/storage/OfflineTelemetryQueue.cpp:361-388 | after a removal the cached count, bytes, smallest id and next id again describe the files, and the FIFO lost its first record |
| Spool.AppendIsEnqueue | src/storage/OfflineTelemetryQueue.cpp:215-228 | after an append the cache describes the files, the FIFO has the record at its end, and the limits hold if the limit test passed |
| Spool.StampKeepsQueue | src/storage/OfflineTelemetryQueue.cpp:309-323 | a rewritten header keeps order, sizes and limits |
| Spool.ByteLimitNeverBinds | include/config.h:203-209 | with the configured limits a queue is full exactly at 256 records; the byte limit is never the reason |
| OfflineQueuePolicy.TokensAreUnambiguous | src/storage/OfflineQueuePolicy.h:9-26 | every 31-bit record id survives its token, and a live token is never taken for a replay token |
| OfflineQueuePolicy.NameRoundTrip | src/storage/OfflineTelemetryQueue.cpp:46-65 | printing and then parsing a file name gives back every id from 1 to 2^31 - 1 |
| OfflineQueuePolicy.LimitTestIsExact | src/storage/OfflineQueuePolicy.h:34-39 | the overflow-safe limit test is: one more record exceeds the count or the bytes |
| OfflineQueuePolicy.MarkPayloadReplayed | src/storage/OfflineQueuePolicy.h:51-70 | the buffer becomes prefix, true mark, suffix and NUL at the first mark before any NUL, and nothing else changes; without a mark nothing changes |
| OfflineQueuePolicy.MarkedPayload | src/storage/OfflineQueuePolicy.h:51-70 | a marked payload is one character shorter and keeps everything before and after the mark |
| OfflineQueuePolicy.FindMarkIsFirst | src/storage/OfflineQueuePolicy.h:51-60 | the search finds the first occurrence, or there is none before the end of the text |
| Fft.RevInvolution | src/acoustic/AudioFeatureExtractor.cpp:187-197 | bit reversal is its own inverse, so guarded swaps realise it |
| Fft.ReversedIncrementIsRev | src/acoustic/AudioFeatureExtractor.cpp:188-192 | the carry of the reversed counter takes the reversal of an index to the reversal of the next |
| Fft.EvalSplit | src/acoustic/AudioFeatureExtractor.cpp:198-223 | a transform is the transform of the even samples plus the turned transform of the odd samples |
| Fft.Butterfly | src/acoustic/AudioFeatureExtractor.cpp:206-215 | one butterfly joins two bins of half length into two bins of full length |
| Fft.AllPassLifts | src/acoustic/AudioFeatureExtractor.cpp:198-223 | a pass turns finished blocks of one length into finished blocks of twice the length |
| Fft.EvalIsBin | src/acoustic/AudioFeatureExtractor.cpp:183-225 | evaluation of the sample polynomial at a power of the root is the sum that defines the bin |
| Fft.ConjugateBins | src/acoustic/AudioFeatureExtractor.cpp:183-225 | for real samples bin n - k is the conjugate of bin k |
| Bits.PowerOfTwoTest | src/acoustic/AudioFeatureExtractor.cpp:24-26 | the bit test accepts exactly the powers of two from 2 on |
| AudioFeatureExtractor.Extractor.Permute | src/acoustic/AudioFeatureExtractor.cpp:187-197 | the reordering loop leaves at every position the sample of the reversed index |
| AudioFeatureExtractor.Extractor.Block | src/acoustic/AudioFeatureExtractor.cpp:203-221 | the inner loop does every butterfly of a block with the right power of the root, and touches nothing else |
| AudioFeatureExtractor.Extractor.Transform | src/acoustic/AudioFeatureExtractor.cpp:183-225 | for every power of two the buffers end up holding the discrete Fourier transform of what they held; other sizes are refused unchanged |
| AudioFeatureExtractor.Extractor.Analyze | src/acoustic/AudioFeatureExtractor.cpp:43-181 | exactly the supported formats are accepted, and the features are the ones the samples determine |
| AudioFeatureExtractor.Extractor.GatherSpectrum | src/acoustic/AudioFeatureExtractor.cpp:122-140 | the loop over the bins computes the power, moment and band totals of the scanned bins |
| AudioFeatureExtractor.Extractor.FindRolloff | src/acoustic/AudioFeatureExtractor.cpp:157-172 | the loop stops at the frequency of the first scanned bin whose cumulative power reaches the target |
| FrameMeaning.SupportedFormats | src/acoustic/AudioFeatureExtractor.cpp:43-51 | the accepted frames have 128, 256, 512 or 1024 samples at 8 to 48 kHz |
| FrameMeaning.LevelIsDecibels | src/acoustic/AudioFeatureExtractor.cpp:13-18 | between its ends a level gives the amplitude back, ten times the amplitude is 20 dB more, 1e-8 and less is -160 dB, full scale and more is 0 dB |
| FrameMeaning.FilterEquation | src/acoustic/AudioFeatureExtractor.cpp:72-87 | the filter solves the difference equation of a one-pole 90 Hz high-pass that starts at rest, whatever the mean it subtracts |
| FrameMeaning.ConstantInputDecays | src/acoustic/AudioFeatureExtractor.cpp:72-87 | a constant input decays by the factor rc / (rc + dt) |
| FrameMeaning.LevelsAreMeasured | src/acoustic/AudioFeatureExtractor.cpp:53-120 | for every accepted frame: the levels are those of the quadratic mean and the peak of the solution of that equation, crest is their quotient, clipping and crossings are counts over the frame, and it is responsive when a twentieth of its samples is audible and two of them differ |
| FrameMeaning.SpectrumIsMeasured | src/acoustic/AudioFeatureExtractor.cpp:122-180 | for every accepted frame: centroid, bands, flatness and rolloff are those of the power in the bins from 80 to 8000 Hz of the discrete Fourier transform of the tapered solution, stated as sums over the bins |
| FrameMeaning.FlatSpectrumIsFlat | src/acoustic/AudioFeatureExtractor.cpp:152-155 | equal power in every bin gives flatness one |
| AcousticFeatures.BandsAreIntervals | src/acoustic/AudioFeatureExtractor.cpp:28-40 | each band holds exactly the power of its own frequency interval |
| AcousticFeatures.PowerIsConserved | src/acoustic/AudioFeatureExtractor.cpp:122-140 | the bands add up to the total power, and the first moment lies between 80 and 8000 times it |
| AcousticFeatures.RolloffIsLeast | src/acoustic/AudioFeatureExtractor.cpp:157-172 | whenever there is power the loop finds a bin, and it is the least one that reaches 85 percent |
| AcousticFeatures.PeakAndEnergy | src/acoustic/AudioFeatureExtractor.cpp:88-89 | the squared peak is at most the energy, and the energy at most the count times the squared peak |
| AcousticFeatures.CrestInRange | src/acoustic/AudioFeatureExtractor.cpp:105-118 | a crest factor is zero or between one and the root of the frame length |
| AcousticFeatures.FramesAreInRange | src/acoustic/AudioFeatureExtractor.cpp:43-181 | levels, ratios, crest, centroid, rolloff, flatness and bands of every accepted frame are in range, and the five band ratios sum to one |
| AcousticPipeline.FeatureAccumulator.Add | src/acoustic/AcousticFeatureAccumulator.cpp:9-67 | an aggregate comes out exactly when the window is full, describes exactly its frames, and the next window starts empty |
| AggregateMeaning.AggregateIsMean | src/acoustic/AcousticFeatureAccumulator.cpp:9-67 | for each of eleven features count times aggregate is the sum over the valid frames, and so for the power of the level down to -160 dB; the peak is the highest; valid needs three quarters of the window, responsive half of it; durations add up |
| AcousticPipeline.FoldBounds | src/acoustic/AcousticFeatureAccumulator.cpp:9-67 | the running sums of any frames stay within the count times the range of one frame |
| AcousticPipeline.AlertConfidenceOnlyForTonalHorn | src/acoustic/AcousticClassifier.cpp:18-134 | an alert category reaches the alert confidence exactly in the tonal horn branch with presence of at least 0.77; traffic and siren stay at 0.60 or below |
| ClassifierRegions.CategoriesAreRegions | src/acoustic/AcousticClassifier.cpp:18-134 | each of the ten categories is answered in exactly its region of the features |
| ClassifierRegions.ConfidenceInRegions | src/acoustic/AcousticClassifier.cpp:18-134 | the confidence in each region |
| ClassifierRegions.KnownSounds | test/test_acoustic_classifier/test_main.cpp:79-197 | the measured and the made-up sounds of the test suite get the categories it expects, below the alert confidence |
| AcousticPipeline.PublishedAnalysisIsValid | src/acoustic/AcousticMessageBuilder.cpp:93-114 | sixteen configured frames of any samples give a valid aggregate, and it passes the message check exactly when it is responsive |
| AcousticAlerts.AlertEvaluator.Update | src/acoustic/AcousticAlertEvaluator.cpp:21-60 | one update of the evaluator is the step function of the run theorems |
| AcousticAlerts.TriggerMeansSustained | src/acoustic/AcousticAlertEvaluator.cpp:38-58 | a trigger means at least 8 seconds of true time in which every update was eligible for that event |
| AcousticAlerts.SuccessiveTriggers | src/acoustic/AcousticAlertEvaluator.cpp:50-58 | two successive triggers are 30 seconds of true time apart, unless the first is stamped with wrapped time zero |
| AcousticAlerts.RetriggerInsideCooldown | src/acoustic/AcousticAlertEvaluator.cpp:50-58 | inside the cooldown a sustained sound triggers again if and only if the last trigger was stamped zero |
| AcousticAlerts.SentinelRetriggers | src/acoustic/AcousticAlertEvaluator.cpp:50-53 | a run with two triggers one millisecond apart |
| AcousticAlerts.TriggerRate | src/acoustic/AcousticAlertEvaluator.cpp:50-58 | in a window of length D there are at most D / 30000 + 1 triggers, and one more for each trigger stamped zero |
| AlertTiming.TriggersExactly | src/acoustic/AcousticAlertEvaluator.cpp:21-60 | for every run and update: it triggers if and only if the sound is clear, loud, confident and of an alerting kind, has lasted 8 seconds, and there was no trigger before, or the last is stamped zero or 30 seconds ago, all modulo 2^32 ms |
| AlertTiming.SustainedSoundTriggers | src/acoustic/AcousticAlertEvaluator.cpp:38-58 | a sound that has lasted 8 seconds of true time triggers whenever every earlier trigger is 30 seconds of true time ago and no gap fills the clock; its event and severity are those of its kind |
| AcousticAlerts.OnlyHornsTrigger | src/sensors/INMP441Microphone.cpp:149-184 | in every run fed by the classifier the only event that ever triggers is a horn |
| Trips.TripService.Process | backend/app/services/trips.py:32-132 | the service does to its tables what the specification function says, for every sample; what that is, sample by sample and without its definitions, is TripSteps.JoinsExactly, TripSteps.OpensExactly and TripWindows.ClosingWindow |
| TripSteps.JoinsExactly | backend/app/services/trips.py:89-119 | after any samples: one that meets an active trip becomes its last point if and only if it has a valid fix with position and speed and a dilution of at most 5, is later than the last point, and distance times 3600 is at most the jump speed times the seconds since, at least one; otherwise nothing changes |
| TripSteps.OpensExactly | backend/app/services/trips.py:56-87 | after any samples: without an active trip a sample with a fix clears the motion note below the start speed, writes it, waits, or opens a trip once the start duration has passed; without a fix nothing changes |
| Trips.TripService.ActiveTrip | backend/app/services/trips.py:49-54 | the query finds the active trip of the vehicle that started last |
| TripProperties.TripsAreFaithful | backend/app/services/trips.py:49-132 | after any samples of any devices, every trip's counts, sums, maximum, average, distance and end agree with its points, points are strictly increasing in time, no leg beats the jump limit, and a vehicle has at most one active trip |
| TripProperties.PointsAreSamples | backend/app/services/trips.py:135-144 | every point of a trip is a usable sample that a device of its vehicle sent, at that sample's time |
| TripProperties.DistanceIsBounded | backend/app/services/trips.py:91-109 | a trip's distance is at most the jump speed times the time of its legs, each at least a second |
| TripProperties.AverageIsAtMostMaximum | backend/app/services/trips.py:115-119 | the average speed is at most the maximum |
| TripProperties.CompletedIsFinal | backend/app/services/trips.py:49-54 | no later sample changes a completed trip or its points |
| TripWindows.OpeningWindow | backend/app/services/trips.py:56-87 | for any devices: every trip opens after at least the start duration since a sample of its device, from which on no usable sample of that device outside trips was below the start speed; it starts at that sample's time |
| TripWindows.OpeningWindowAlone | backend/app/services/trips.py:56-87 | with one device per vehicle no usable sample of the device at all was below the start speed in that window |
| TripWindows.ClosingWindow | backend/app/services/trips.py:121-131 | for any devices: a sample that joins a trip completes it if and only if it is slow and the stop duration has passed since a point of its device, from which on every point that device contributed was slow and it opened no trip |
| TripWindows.CompletedBy | backend/app/services/trips.py:89-131 | every completed trip was completed by a sample that joined it, at that sample's time |
| TripWindows.StoppedIsCompleted | backend/app/services/trips.py:121-131 | with one device per vehicle a trip is completed if and only if its points have been slow for the stop duration |
| TripWindows.SlowSinceIsRun | backend/app/services/trips.py:121-131 | the stop note is the time of the first point of the slow run at the end of the trip |
| TripWindows.DisjointIfAndOnlyIfClear | backend/app/services/trips.py:56-131 | for any devices and event times, the trips of a vehicle are disjoint and in order if and only if at every opening sample the motion note was not before the last point of an earlier trip of the vehicle |
| TripWindows.TripsAreDisjoint | backend/app/services/trips.py:56-131 | with one device per vehicle and event times that do not decrease, the trips of a vehicle are disjoint and in order |
| TripWindows.SharedVehicleOverlaps | backend/app/services/trips.py:60-66 | two devices of one vehicle and six samples that give overlapping trips |
| TripWindows.GoingBackOverlaps | backend/app/services/trips.py:60-87 | one device and six samples, whose times go back, that give overlapping trips |
| Ingestion.RedeliveryIsInvisible | backend/app/services/ingestion.py:60-103 | for every stream with repeats, rollbacks and failures after commit, whoever uses which key, rows, trips, points and device notes equal those of running each stored message once in order of first commit; only new senders without notes may be registered besides |
| Ingestion.RedeliveryLeavesNoSender | backend/app/services/ingestion.py:60-103 | when each key has one sender, the whole database is equal |
| Ingestion.OnceEachIsStored | backend/app/services/ingestion.py:146-159 | each message of the shortened stream is stored when it is run |
| Ingestion.ScheduleDoesNotMatter | backend/app/services/ingestion.py:146-159 | streams with the same order of first commits end with the same rows, trips, points and notes of the devices they stored messages of, and with the same database when nobody can register or each key has one sender |
| Ingestion.OneRowPerKey | backend/app/services/ingestion.py:155-159 | after any stream the table has one row per key, every row has a registered sender, and every row holds what some attempt said |
| Ingestion.AcknowledgedIsStored | backend/app/mqtt/client.py:134-156 | a telemetry message acknowledged without rejection has its row then and ever after |
| Ingestion.RepeatChangesNothing | backend/app/services/ingestion.py:155-163 | an attempt that is not stored leaves rows, trips, points and known devices alone, and changes the database if and only if it repeats a key and its sender is not registered |
| Ingestion.StrangerIsRegistered | backend/app/services/ingestion.py:105-133 | two messages of two senders under one key: the second stores nothing and registers its sender, whom the shortened stream does not know |
| Ingestion.TripsSurviveRedelivery | backend/app/services/ingestion.py:214-230 | trips agree with their points after any stream |
| Ingestion.IngestionService.ResolveIdentity | backend/app/services/ingestion.py:105-133 | the sender is refused without a change exactly when it is unknown and may not register or belongs to another vehicle; otherwise it is registered and every known device stays as it was |
| Ingestion.IngestionService.Ingest | backend/app/services/ingestion.py:60-103 | a transaction takes effect whole or not at all, and a failure after commit is reported as a failure; what is stored, and at which time trips see it, is RowTrips.StoresExactly and RowTrips.TripsAreOfRows |
| RowTrips.StoresExactly | backend/app/services/ingestion.py:105-163 | after any stream: a message gets a row if and only if it commits, its sender is welcome and no row has its key |
| RowTrips.TripsAreOfRows | backend/app/services/ingestion.py:214-230 | after any stream trips, points and device notes are those of the stored rows in their order, each at its measured time, or else at its arrival |
| RowTrips.PointsAreMeasured | backend/app/services/ingestion.py:214-230 | every point of every trip is a stored message of the vehicle, at the time the message was measured, or else when the stored delivery arrived |
| RowTrips.DelayIsInvisible | backend/app/services/ingestion.py:214-230 | however long measured messages are on their way, trips and points are the same |
| Ingestion.Consumer.OnMessage | backend/app/mqtt/client.py:123-169 | a delivery is either acknowledged or answered with a reconnect, the latter exactly when the transaction failed, or its message was news and the live update failed; a valid sample is acknowledged only when its row exists |
| Ingestion.Consumer.RepeatsAreInvisible | backend/app/mqtt/client.py:123-169 | what the consumer has stored is what one delivery of each message would have left, up to registered senders, and exactly that when each key has one sender |
| EndToEnd.ExactlyOnce | src/app/AppController.cpp:258-307 | once the backend has accepted what the broker received, each sample the device accepted is still on its card, was dropped there, was lost to a stale acknowledgement, or has exactly one row, which holds what the sample says; nothing is lost if the device's queue never emptied with a publish outstanding |
| EndToEnd.RowIsTheSample | backend/app/services/ingestion.py:135-192 | no row under a sample id of the device holds anything else than the sample with that id |
| EndToEnd.SamplesHaveTheirOwnRows | contracts/README.md:28-28 | different samples of a device have different rows |
| ReplayQueue.DevicePublisher.Flush | simulator/vehiclesense_simulator/publisher.py:89-106 | with another thread between any two lock sections, flush sends envelopes in strictly increasing order after all sent before, each unchanged but for its field, which says replayed; it stops short of the maximum only without a connection, with the queue empty, or when the network refuses, and then keeps the refused one in front; length and in-flight stay within the limit plus one, and every queued envelope is sent, dropped, waiting or in flight |
| ReplayQueue.DevicePublisher.Enqueue | simulator/vehiclesense_simulator/publisher.py:107-112 | adds at the end, dropping and counting the oldest waiting envelope of a full queue |
| ReplayQueue.DevicePublisher.Publish | simulator/vehiclesense_simulator/publisher.py:82-87 | sends exactly when there is a connection and the network confirms; what is not sent is kept at the end of the queue, except status messages |
| ReplayQueue.LosesOne | simulator/vehiclesense_simulator/publisher.py:109-111 | losing the oldest waiting envelope keeps the order of all that were not dropped |
| DeviceStatus.AlertsAgree | backend/app/services/alerts.py:245-364 | in every run a device has at most one open backend alert of a kind, and an open connectivity alert means that the device is in that state |
| StatusAlerts.StatusIsAnnounced | backend/app/services/alerts.py:245-364 | in every run in which no operator ends a connectivity alert by hand, a device that started neither offline nor stale has an open alert of that kind exactly while it is offline, or stale |
| StatusAlerts.ReportMovesAlerts | backend/app/services/alerts.py:245-364 | a report opens the alert of its state with one occurrence, or adds one to the open one and moves its last time; it ends the other kind, and no other alert changes |
| StatusAlerts.ReportMovesRow | backend/app/services/device_status.py:19-46 | status, reason and times of the row after a report; history grows exactly when status or reason changed |
| StatusAlerts.ScanReports | backend/app/services/device_status.py:48-78 | the scan does to a device what a report of the state that its silence demands would do, and nothing when it is in that state |
| StatusAlerts.ScanDecides | backend/app/services/device_status.py:48-78 | after a scan a device that was seen is offline from 120 seconds on, stale from 45 on, else online, with the reason of that state; its row changes only if the status does |
| DeviceStatus.SilenceSettles | backend/app/services/device_status.py:48-78 | without messages a device changes status at most three times; one that was never seen keeps its status, and any other is offline once the limit has passed since it was seen and since the first scan |
| DeviceStatus.ThreeChanges | backend/app/services/device_status.py:48-78 | three changes do occur, after an early offline report |
| DeviceStatus.ScanIsRowByRow | backend/app/services/device_status.py:48-78 | the scan treats every device on its own |
| DeviceStatus.ConditionKeeps | backend/app/services/alerts.py:306-364 | a condition keeps alerts unique, and an ended connectivity condition leaves none open |
| DeviceStatus.DeviceStatusService.Condition | backend/app/services/alerts.py:306-364 | opens, repeats or resolves the alert as the specification function says |
| DeviceStatus.DeviceStatusService.Mark | backend/app/services/device_status.py:19-46 | row, history and alerts change as the specification function says |
| DeviceStatus.DeviceStatusService.EvaluateStaleDevices | backend/app/services/device_status.py:48-78 | the loop marks exactly the devices whose status differs from what their silence demands |
| DeviceIdentity.Identity.Begin | src/system/DeviceIdentity.cpp:13-39 | a boot takes the next number, one after 2^32 - 1, and keeps it in flash before using it; it succeeds exactly when the flash opens and confirms |
| DeviceIdentity.Identity.Identify | src/system/DeviceIdentity.cpp:49-69 | with an identity and room for it the id is device, boot and number, separated by colons; until a 32-bit counter wraps it differs from every id handed out before in this boot and all earlier ones |
| DeviceIdentity.Identity.NextSequence | src/system/DeviceIdentity.cpp:49-58 | without an identity the number is zero, with one it is the next number, one after 2^32 - 1 |
| DeviceIdentity.SampleIdsAreDistinct | src/system/DeviceIdentity.cpp:60-69 | two sample ids of a device are equal exactly when boot and number are |

## Left out

- Inside the SD library, FAT and ESP-MQTT: rename, remove and header rewrite are atomic steps that may fail; an id is not given to another message while it is in the outbox or noted as pending, so the 16-bit wrap of message ids is not modelled.
- Directory reads: listing the directory and reading files during the boot scan succeed; the size of a file that is about to be removed can be read.
- The protocol's boot numbers grow without end; in the firmware the 32-bit boot counter skips zero and starts again, as `DeviceIdentity` models it.
- EndToEnd.ExactlyOnce: takes as given that the backend reads a payload alike with and without the replayed mark, that payloads carry the ids `DeviceIdentity` gave out, and that nobody else sends under them; JSON decoding is a parameter.
- DeviceIdentity.Identity.Identify: says nothing about new ids after a counter has wrapped, where numbers are used again.
- The live publish used when the spool is not ready, documented as not durable, and its tokens in the protocol.
- Floating-point rounding, and the library functions beyond the facts stated above.
- Diagnostic counters are unbounded; the firmware's are 32 bits wide.
- Command chunks, command acknowledgements, acoustic measurements, device events and quarantine in the backend: such messages are `Other` and only register their sender.
- Contract validation: a message reaches the model after it passed; a rejected one changes nothing there.
- Telemetry conditions behind the other alerts: the model takes whether a condition holds as given.
- Unique event keys of alerts: two openings of one alert in the same microsecond.
- haversine_km is any non-negative function of two places.
- Sensors, modem, WiFi, firmware update, local web pages, REST, authentication, WebSocket, frontend and deployment.
