# Verified models of the system hook and its server

The repository is a local gRPC and REST server (Rust) and a set of Android hooks (Kotlin) that keep a
wearable working without its original cloud. This project models the parts of it that are protocols,
state machines or data transformations in their own right, and proves what they guarantee.

Each module follows one component. State that the source updates in place is a class whose methods
are proved equal to a function of the old state; what the component promises is then proved about
those functions, for every input or for every run. Concurrency is modelled at lock boundaries: an
`Action` is one critical section or await point, `Run` executes an arbitrary schedule, and time is a
counter that any step may advance.

| file | component |
|---|---|
| `dedup_table.dfy`, `dedup_protocol.dfy`, `dedup_steps.dfy`, `dedup_exclusion.dfy`, `dedup_stranding.dfy`, `dedup_hot_swap.dfy`, `response_body.dfy` | request coalescing, response cache and hot swap of the handler tree |
| `settings.dfy`, `settings_steps.dfy` | configuration update with rollback and swap, carried through and dropped |
| `hand_tracking.dfy`, `hand_tracking_history.dfy`, `hand_tracking_split.dfy` | session lifetime of low-power hand tracking |
| `spotify_fill.dfy`, `spotify_serve.dfy`, `wav.dfy` | the growing-file audio server |
| `contacts.dfy`, `contact_forms.dfy`, `contact_import.dfy`, `contact_sync.dfy` | contact store, merging import and delta synchronisation |
| `esim_record.dfy`, `esim_history.dfy`, `esim_wait.dfy`, `esim_store.dfy` | eSIM bridge records and waits |
| `bf25.dfy`, `bf25_objects.dfy` | the StoreMetadataRequest walker |
| `conversations.dfy`, `conversation_rows.dfy` | merging of saved conversations |
| `openai_history.dfy`, `history_turns.dfy`, `proxied_conversations.dfy` | OpenAI message list to chat history, through both programs, and on into the saved conversations |
| `toml_overlay.dfy` | the configuration overlay |
| `image_store.dfy`, `top_k.dfy`, `recency.dfy` | bounded stores |
| `capture_broker.dfy` | live camera frames |
| `text.dfy`, `options.dfy`, `fresh.dfy` | trimming, shared result shapes, unused ids |

`dafny verify dfyconfig.toml` checks everything.

## Where the code falls short of what one might expect

Each of these is proved: a concrete input or schedule that shows it, and beside it the exact condition
under which the expected property does hold.

- An update of the settings whose client goes away between the first edit and the swap stays committed
  without handlers built for it (`SettingsSteps.DroppedWhileOpening`); configuration and handlers agree
  after a drop exactly as `SettingsSteps.DroppedUpdateAgreesIff` says, and `HealedIff` says until when.
- A dropped leader leaves its key stuck until `clear()` (`DedupStranding.DroppedLeaderStrands`,
  `WedgedKeyStaysWedged`); a waiting request can be answered exactly when it is not stranded
  (`DedupStranding.AnswerableIffNotStranded`).
- A take-over does not wait for a leader that is already running: two followers that lost the same leader
  both run the handler (`DedupSteps.OrphansLeadTogether`, `RetakeOverlapsIff`).
- A request that had read the old handlers can answer one that arrives after swap and `clear()`: exactly
  when there is such a request for the key (`DedupHotSwap.OldResponseReachesNewcomerIff`).
- A response stream that fails is cached and passed on as a success
  (`ResponseBody.FailureBecomesSuccessIff`).
- A hand-tracking start that throws leaves a session armed with no timer
  (`HandTracking.FailedTouchLeaks`, `FailedStartIff`), and an alert that is allowed to start sessions can
  end a projection (`AlertCanEndProjection`, `AllowedStartExactIff`).
- The audio handler reads the fill counter and the done flag separately and can stop short of the length
  it announced (`SpotifyServe.ShortResponseRace`, `CanEndShortIff`).
- An eSIM event of a wanted type is missed when another type became final before it and the waiter
  subscribed after it (`EsimWait.EarlierFinalHidesWantedEvent`, `WaitCanHangIff`), and the status of a request
  can be overwritten while it is enqueued (`EsimStore.LateMarkHarmlessIff`).
- A contact changed in the very millisecond of the cursor is never sent
  (`ContactSync.ChangeAtCursorIsMissed`, `SyncConvergesIff`), and one saved between the two queries of a
  full sync is missed (`SavedBetweenIsMissed`, `DisturbedFullSyncIff`).
- Conversation merging can overwrite an unrelated recent conversation
  (`Conversations.StrangerIsOverwritten`, `SafeToSaveIff`).
- The frame wait's exit for no time left can miss a frame that came in time
  (`CaptureWait.NoTimeLeftCanMiss`, `CanMissIff`).
- The recomputed size of a notification list is wrong when its length octets are not the shortest
  (`Bf25.RecomputedSizeIsRightIff`).
- Proxy and server both drop a user message, so a history with more than one keeps one fewer than it
  should (`OpenAiHistory.NothingElseLostIff`), and the first follow-up of a chat through the proxy is saved
  as a second conversation (`ProxiedConversations.ProxiedFollowUpMergesIff`, `NewReplyInPlaceIff`).
- A touch that comes between the checks of a timeout callback and its stop call is stopped at once
  (`HandTrackingSplit.CanStopEarlyIff`, `StopIsEarlyIff`).
- The TOML overlay is not associative in general (`TomlOverlay.AssociativeIff`).

## Model

| member | source | states |
|---|---|---|
| DedupTable.SharedTable.EnterRequest | server-rs/src/dedup.rs:191-210 | the first critical section: a young cache entry answers; otherwise the stale entry goes and the request joins the key's channel at its current end, or opens one and leads |
| DedupTable.SharedTable.TakeOverLeadership | server-rs/src/dedup.rs:213-226 | a follower whose channel failed leads, opening a channel only if the key has none; the cache is not looked at again |
| DedupTable.SharedTable.PublishResponse | server-rs/src/dedup.rs:271-277 | publishing removes the sender, caches the response and sends it once on the key's channel if there is one |
| DedupTable.SharedTable.ClearAll | server-rs/src/dedup.rs:115-121 | clearing empties both maps, closing every channel, and touches no message already sent |
| DedupProtocol.InvRun | server-rs/src/dedup.rs:164-280 | every schedule keeps channels owned, messages genuine, open channels empty and cache entries results of their own key |
| DedupProtocol.AnswersMatchTheirKey | server-rs/src/dedup.rs:191-277 | in every interleaving at all, an answered request holds a result executed for exactly its path and body, and no channel ever carries more than one message, so its capacity of four never lags |
| DedupSteps.ArriveDoes | server-rs/src/dedup.rs:191-210 | an arrival is answered by an entry younger than the TTL, joins its key's channel from the next message on, or registers a new, empty channel of its own and leads; an older entry is forgotten and no other key is touched |
| DedupSteps.ReceiveDoes | server-rs/src/dedup.rs:213-219 | a follower gets the message of its channel, waits while there is none and the channel is open, and is orphaned when it closes without one |
| DedupSteps.RetakeRegisters | server-rs/src/dedup.rs:213-226 | a take-over leaves its key in flight: on a new, empty channel of its own if it was not, otherwise with the table as it was; the request leads either way |
| DedupSteps.TakenOverKeyIsNotLedAgain | server-rs/src/dedup.rs:204-226 | after a take-over, in every run without a clear or a publication for the key, a request arriving for it never leads: the cache answers it or it waits on that channel |
| DedupSteps.OrphansLeadTogether | server-rs/src/dedup.rs:221-230 | two followers that lost the same leader both run the handler, one of them beside the sender of the other |
| DedupSteps.RetakeOverlapsIff | server-rs/src/dedup.rs:221-230 | a take-over runs the handler beside another leader of its key exactly when one is already running |
| DedupSteps.RunningDoes | server-rs/src/dedup.rs:229-269 | the handlers read are the live ones, and the collected result carries the clock, the request, its key and those handlers; the table is not touched |
| DedupSteps.CompleteDoes | server-rs/src/dedup.rs:271-280 | publishing takes the key out of flight, caches the leader's own result for it and makes it the one message of the key's channel if there is one, and nothing else changes |
| DedupSteps.ClearDoes | server-rs/src/dedup.rs:115-121 | after a clear no key is in flight or cached and no channel is open; messages, requests and clock stay |
| DedupSteps.SurroundingsDo | server-rs/src/services/aibus/mod.rs:64-71 | a client that goes away leaves the table as it was, a swap changes the live handlers only, and time passes |
| DedupExclusion.ExecutionsNeverOverlap | server-rs/src/dedup.rs:191-277 | with no clear and no dropped leader, a key is in flight exactly when one request runs its handler, and never two do |
| DedupExclusion.EverySenderHasALiveLeader | server-rs/src/dedup.rs:115-121 | with clears allowed, every sender left in the map belongs to a leader of that key that is still running |
| DedupExclusion.ExecutionsAreATtlApart | server-rs/src/dedup.rs:191-201 | with no clear and no dropped leader, a key is executed again no sooner than its method's TTL after its previous result was collected |
| DedupStranding.StrandedForever | server-rs/src/dedup.rs:213-226 | without clear, a follower that has nothing to receive and nobody left to publish for its key is never answered, whatever else happens |
| DedupStranding.AnswerableIffNotStranded | server-rs/src/dedup.rs:213-277 | in every reachable state a waiting follower can still be answered without a clear if and only if it is not stranded |
| DedupStranding.NobodyStrandedWithoutDrops | server-rs/src/dedup.rs:115-121 | if no leader is dropped, with or without clears, no follower is ever stranded |
| DedupStranding.ClearFrees | server-rs/src/dedup.rs:115-121 | a clear frees every stranded follower: it can lead and answer itself |
| DedupStranding.NewcomerIsStrandedOrServed | server-rs/src/dedup.rs:191-210 | a request arriving for a key nobody is left to publish is stranded too, unless a cache entry younger than its TTL answers it |
| DedupStranding.WedgedKeyStaysWedged | server-rs/src/dedup.rs:191-277 | without clear such a key stays so in every run, and every later request for it is never answered or gets that one cache entry |
| DedupStranding.DroppedLeaderStrands | server-rs/src/dedup.rs:204-213 | after a leader is dropped its follower is stranded, and in every run without clear every later request for the key stays unanswered |
| DedupHotSwap.OldHandlersOnlyThroughOldLeaders | server-rs/src/services/aibus/mod.rs:64-71 | after a swap and a clear, any response of older handlers a request receives comes from a leader that had read them by the swap, unless it was already answered or already in the request's channel |
| DedupHotSwap.StaleCacheHitsAreYoung | server-rs/src/dedup.rs:194-201 | an older handler's response is served from the cache after the clear only while its age is below the method's TTL |
| DedupHotSwap.OldResponseReachesNewcomerIff | server-rs/src/dedup.rs:271-277 | from any state, some schedule of swap and clear gives a request that arrives after the clear an old response for its key if and only if, at the swap, a request for that key had read the old handlers and not yet published |
| DedupHotSwap.OldLeaderReachesNewRequest | server-rs/src/dedup.rs:271-277 | from any state, the response of a request running the handler at the swap is served out of the cache to one that arrives after the clear |
| DedupHotSwap.UnclearedCacheServesOldIff | server-rs/src/dedup.rs:194-201 | without the clear, an arriving request is served an old response at once exactly when its key has a cache entry younger than the TTL |
| ResponseBody.CollectFrames | server-rs/src/dedup.rs:237-261 | the frame loop keeps the data of the frames before the first error, in order, and their last trailers, or synthesised success trailers if there were none |
| ResponseBody.FailureLooksLikeEnd | server-rs/src/dedup.rs:241-261 | a stream error is not reported: the response is the one the stream would have given by ending there |
| ResponseBody.FailureBecomesSuccessIff | server-rs/src/dedup.rs:250-261 | a failed stream is passed on with grpc-status 0 exactly when it failed before any trailers, or the last that came carry that status |
| ResponseBody.TraileredBody.PollFrame | server-rs/src/dedup.rs:307-326 | polling yields the data once, then the trailers once, then the end |
| ResponseBody.ReplayThenCollect | server-rs/src/dedup.rs:283-326 | a rebuilt response, collected again, gives the same body and trailers |
| ResponseBody.PassThrough | server-rs/src/dedup.rs:283-326 | so does polling the rebuilt body to its end and running the frame loop over it |
| Settings.SettingsState.Update | server-rs/src/api.rs:967-1260 | an update that is carried through is accepted exactly when it is acceptable; then the new configuration, with the fields the request names changed as it says and every other kept, is committed, the live handlers are built from it and the table is cleared, and otherwise nothing at all changes |
| Settings.UpdateFollowsFields | server-rs/src/api.rs:1025-1200 | a request is accepted exactly when it is well formed and asks for a configuration that can be built, and then every field it names has the named value (as given, trimmed, at least one, or cleared by the empty text) and every other its old one |
| Settings.AskedIsApplied | server-rs/src/api.rs:1028-1198 | those values determine the configuration: a request asks for one only |
| Settings.HandlersMatchCommittedConfig | server-rs/src/api.rs:1202-1260 | after any sequence of updates carried through, the live handlers are the ones built from the committed configuration, as if rejected requests had never been sent |
| SettingsSteps.UndroppedUpdate | server-rs/src/api.rs:1025-1260 | the update cut at its awaits, if it is never dropped, is that atomic update |
| SettingsSteps.AgreeUnlessTorn | server-rs/src/api.rs:1025-1260 | in every run of updates, with drops at any await, configuration and live handlers agree whenever nobody holds the lock, as long as no drop tears them apart |
| SettingsSteps.DropAgreesIff | server-rs/src/api.rs:1202-1244 | dropping an update leaves the two in agreement exactly when the handlers were already replaced or the request changes nothing |
| SettingsSteps.DroppedUpdateAgreesIff | server-rs/src/api.rs:1025-1244 | an update begun in agreement and dropped after any of its steps leaves agreement exactly when the swap was done or it asks for what was there; what it asked for stays committed either way |
| SettingsSteps.HealedIff | server-rs/src/api.rs:1025-1260 | after a tear, an update carried through ends in agreement exactly when it is acceptable or there was agreement before |
| SettingsSteps.DroppedWhileOpening | server-rs/src/api.rs:1205-1216 | a request enabling memory, dropped while the store opens, stays committed without handlers built for it, even if it would have been rejected |
| SettingsSteps.SwappedButNotCleared | server-rs/src/api.rs:1243-1244 | dropped between swap and clear, the update is committed and live but the table keeps all it held |
| SettingsSteps.OnlyAcceptableSwaps | server-rs/src/api.rs:1205-1243 | only an acceptable request ever gets as far as the swap |
| Settings.UpdateTwice | server-rs/src/api.rs:1024-1200 | an accepted request is accepted again when repeated, and repeating any request changes nothing further |
| HandTracking.HandTrackingHooks.DoHandleUpdate | hook/src/main/kotlin/com/penumbraos/hook/HandTrackingTimeoutHooks.kt:287-381 | the in-place update of every reason, with its early exits when the service throws, computes the transition the theorems are about, and `HandTrackingHistory` reads its flags, lock and timer off the history |
| HandTrackingHistory.FactsFromHistory | hook/src/main/kotlin/com/penumbraos/hook/HandTrackingTimeoutHooks.kt:219-381 | in every run the session is armed, answering, narrating, projecting, locked or waiting for its callback exactly when some action began that and no later one ended it |
| HandTrackingHistory.FactStep | hook/src/main/kotlin/com/penumbraos/hook/HandTrackingTimeoutHooks.kt:287-381 | one action: each of those holds afterwards exactly if the action begins it, or it held and the action does not end it |
| HandTrackingHistory.NarrationEndDoes | hook/src/main/kotlin/com/penumbraos/hook/HandTrackingTimeoutHooks.kt:315-331 | the end of a narration on an armed session leaves no response, no narration and no lock, and one callback exactly if no hand is projected |
| HandTrackingHistory.LaserEndDoes | hook/src/main/kotlin/com/penumbraos/hook/HandTrackingTimeoutHooks.kt:344-354 | the end of a projection leaves one callback unless a response or narration goes on, and neither lock nor holds change otherwise |
| HandTrackingHistory.ResponseStartedDoes | hook/src/main/kotlin/com/penumbraos/hook/HandTrackingTimeoutHooks.kt:219-229 | a response that begins takes the callback away unless the session was held already |
| HandTrackingHistory.InteractionClearedDoes | hook/src/main/kotlin/com/penumbraos/hook/HandTrackingTimeoutHooks.kt:239-256 | a response that ends leaves one callback unless narration or projection goes on |
| HandTrackingHistory.PostedCallback | hook/src/main/kotlin/com/penumbraos/hook/HandTrackingTimeoutHooks.kt:400-428 | whatever posts a callback posts the only one, newer than all before, due after the configured time bounded to one second to one minute |
| HandTracking.HandTrackingHooks.TimerCallback | hook/src/main/kotlin/com/penumbraos/hook/HandTrackingTimeoutHooks.kt:408-428 | a callback acts only with the current generation, an armed session and no active hold |
| HandTracking.SessionNeverLeaks | hook/src/main/kotlin/com/penumbraos/hook/HandTrackingTimeoutHooks.kt:400-440 | while service starts succeed, every reachable armed session without a hold has exactly one live callback, current and due within 1 to 60 seconds of its posting |
| HandTracking.TimerRunsExactlyWhenUnheld | hook/src/main/kotlin/com/penumbraos/hook/HandTrackingTimeoutHooks.kt:287-381 | with alert and sound starts off, the timer runs exactly while the session is armed and unheld, so never during projection |
| HandTracking.TimerStopsOnlyQuietSessions | hook/src/main/kotlin/com/penumbraos/hook/HandTrackingTimeoutHooks.kt:408-428 | a callback, even one dequeued before it was cancelled, stops the session exactly when current, armed and unheld by response or narration; then at least the minimum timeout has passed since the last touch |
| HandTrackingSplit.UninterruptedIsFire | hook/src/main/kotlin/com/penumbraos/hook/HandTrackingTimeoutHooks.kt:408-428 | the callback as two steps, checks and then the stop call, does the same when only time passes between them |
| HandTrackingSplit.StopIsEarlyIff | hook/src/main/kotlin/com/penumbraos/hook/HandTrackingTimeoutHooks.kt:408-428 | with hooks between the two steps, in every run the stop comes within the minimum timeout of a touch exactly when that touch came between checks and stop; with no hook between it stops an armed session nothing holds |
| HandTrackingSplit.CanStopEarlyIff | hook/src/main/kotlin/com/penumbraos/hook/HandTrackingTimeoutHooks.kt:408-428 | a callback can still stop a session that has just been touched exactly when it has passed its checks and not yet stopped it |
| HandTrackingSplit.TouchedIsStale | hook/src/main/kotlin/com/penumbraos/hook/HandTrackingTimeoutHooks.kt:408-419 | a touch makes every callback that has not been checked stale |
| HandTrackingSplit.SplitNeverLeaks | hook/src/main/kotlin/com/penumbraos/hook/HandTrackingTimeoutHooks.kt:400-440 | while service starts succeed, an armed session without a hold has its timer except between the checks and the stop |
| HandTracking.LockCallsBalance | hook/src/main/kotlin/com/penumbraos/hook/HandTrackingTimeoutHooks.kt:456-493 | acquires minus releases equals the token, plus releases the service refused; the token implies an armed, narrating session |
| HandTracking.NoReleaseLost | hook/src/main/kotlin/com/penumbraos/hook/HandTrackingTimeoutHooks.kt:478-493 | when service calls succeed no release is ever lost, so the balance is exactly the token |
| HandTracking.SessionEndsByItself | hook/src/main/kotlin/com/penumbraos/hook/HandTrackingTimeoutHooks.kt:400-428 | from an armed session no response or narration holds, every schedule of the message queue has stopped it once the live callback is due, which is within the maximum timeout, and everything due has run |
| HandTracking.EndingStops | hook/src/main/kotlin/com/penumbraos/hook/HandTrackingTimeoutHooks.kt:400-428 | and there is always such a schedule |
| HandTracking.LooperCanStopIff | hook/src/main/kotlin/com/penumbraos/hook/HandTrackingTimeoutHooks.kt:408-428 | the queue can stop an armed session exactly when a live callback is out and no response or narration holds it |
| HandTracking.FailedStartIff | hook/src/main/kotlin/com/penumbraos/hook/HandTrackingTimeoutHooks.kt:287-381 | from every state runs keep, exactly when a throwing start leaks the timer or leaves one that should not run, for a touch, a narration, a projection, and an allowed alert or sound |
| HandTracking.FailedTouchLeaks | hook/src/main/kotlin/com/penumbraos/hook/HandTrackingTimeoutHooks.kt:287-381 | a touch whose start throws leaves an idle device armed, unheld and without a timer |
| HandTracking.AllowedStartExactIff | hook/src/main/kotlin/com/penumbraos/hook/HandTrackingTimeoutHooks.kt:287-381 | an allowed alert or sound keeps the timer exact if and only if nothing holds the session |
| HandTracking.AlertCanEndProjection | hook/src/main/kotlin/com/penumbraos/hook/HandTrackingTimeoutHooks.kt:531-533 | a projecting session cannot be stopped by the queue; after an allowed alert or sound it can, exactly when no response or narration holds it |
| HandTracking.ProjectingSessionIsReachable | hook/src/main/kotlin/com/penumbraos/hook/HandTrackingTimeoutHooks.kt:287-381 | such a session is reachable |
| SpotifyFill.TrackBuffer.OnRead | hook/src/main/kotlin/com/penumbraos/hook/SpotifyControl.kt:251-274 | one pipe read updates counters and file as the fill step does: skip to the frame boundary, append, cut off at the expected size |
| SpotifyFill.TrackBuffer.EnsureTrack | hook/src/main/kotlin/com/penumbraos/hook/SpotifyControl.kt:175-199 | reopening the current track or a switch the service refuses leaves the buffer alone; otherwise the buffer is emptied, the pipe position noted and the expected size set; the result says whether the track is there |
| SpotifyFill.BufferIsAlignedWindow | hook/src/main/kotlin/com/penumbraos/hook/SpotifyControl.kt:187-194 | for every split of the pipe into reads and every pattern of switches, byte i of the buffer is pipe byte s+i for the first multiple of four s after the switch, never past the expected size, and done exactly at it |
| SpotifyFill.SplitDoesNotMatter | hook/src/main/kotlin/com/penumbraos/hook/SpotifyControl.kt:251-274 | two ways of cutting the same bytes into reads leave the same state |
| SpotifyFill.BufferOnlyGrows | hook/src/main/kotlin/com/penumbraos/hook/SpotifyControl.kt:251-274 | between switches the buffer only grows at its end |
| SpotifyServe.PlanIsConsistent | hook/src/main/kotlin/com/penumbraos/hook/SpotifyControl.kt:126-144 | the announced range ends at the last byte, its length is the Content-Length, and a start past the end yields the whole file |
| SpotifyServe.PartialIff | hook/src/main/kotlin/com/penumbraos/hook/SpotifyControl.kt:128-144 | partial content exactly for a start after the first byte and before the end; every other request, one without a range too, gets status 200 and the whole file |
| SpotifyServe.ServedIsContiguous | hook/src/main/kotlin/com/penumbraos/hook/SpotifyControl.kt:149-171 | in every interleaving of fill and serve, what was sent is the contiguous run of the final file from the requested start, never past the fill point |
| SpotifyServe.CompleteIffLastLookSawAll | hook/src/main/kotlin/com/penumbraos/hook/SpotifyControl.kt:149-171 | a finished handler sent exactly Content-Length bytes if and only if its last reading of the counter was the final one |
| SpotifyServe.CanEndShortIff | hook/src/main/kotlin/com/penumbraos/hook/SpotifyControl.kt:149-171 | from any state of a handler still in its loop, some schedule makes it send less than it announced exactly when the file is not yet full or its last look has gone stale with nothing left to copy |
| SpotifyServe.RequestCanEndShortIff | hook/src/main/kotlin/com/penumbraos/hook/SpotifyControl.kt:126-171 | for a request, exactly when it begins before the file is full |
| SpotifyServe.CompleteOnceFilled | hook/src/main/kotlin/com/penumbraos/hook/SpotifyControl.kt:149-171 | once the fill has ended, a handler at the top of its loop always sends exactly Content-Length bytes |
| SpotifyServe.HandlerFinishes | hook/src/main/kotlin/com/penumbraos/hook/SpotifyControl.kt:149-171 | and its own steps bring it to the end |
| SpotifyServe.ShortResponseRace | hook/src/main/kotlin/com/penumbraos/hook/SpotifyControl.kt:149-171 | a run in which the fill ends between the handler's two reads and the response is short |
| Wav.WavHeader | hook/src/main/kotlin/com/penumbraos/hook/SpotifyControl.kt:210-218 | the bytes put into the little-endian buffer are the 44-byte header of the given size |
| Wav.HeaderParses | hook/src/main/kotlin/com/penumbraos/hook/SpotifyControl.kt:210-218 | that header reads back as PCM, stereo, 44100 Hz, 16 bit, with both sizes clamped to 32 bits |
| Wav.SizesAreExact | hook/src/main/kotlin/com/penumbraos/hook/SpotifyControl.kt:187-189 | for 1 to 7200000 ms the PCM size is a multiple of four, less than four bytes short of ms times 176.4, at most 1270080000, and both RIFF sizes fit unclamped |
| Wav.UnknownLengthIsClamped | hook/src/main/kotlin/com/penumbraos/hook/SpotifyControl.kt:187-189 | a track of unknown length announces the largest sizes the header can hold |
| Contacts.NormalizePhoneIdempotent | server-rs/src/db/contacts.rs:550-557 | normalising a phone number twice is normalising it once |
| Contacts.NormalizeEmailIdempotent | server-rs/src/db/contacts.rs:546-548 | normalising an e-mail address twice is normalising it once |
| ContactForms.NormalizePhoneKeeps | server-rs/src/db/contacts.rs:550-557 | normalising a phone number keeps all its digits in order, and a plus sign exactly if it is the first character that is not blank |
| ContactForms.PhonesMatchIff | server-rs/src/db/contacts.rs:550-557 | two phone numbers count as the same exactly when their digits agree and both or neither is led by a plus sign |
| ContactForms.DigitsConcat | server-rs/src/db/contacts.rs:550-557 | the digits of a text are those of its parts, for every split |
| ContactForms.NormalizeEmailKeeps | server-rs/src/db/contacts.rs:546-548 | normalising an address removes outer blanks and capitals and keeps everything else |
| ContactForms.EmailsMatchIff | server-rs/src/db/contacts.rs:546-548 | two addresses count as the same exactly when they differ in outer blanks and case only |
| Contacts.NormalizeContactIdempotent | server-rs/src/db/contacts.rs:256-285 | normalising a whole contact twice is normalising it once |
| ContactForms.NormalizeContactKeeps | server-rs/src/db/contacts.rs:256-291 | names, id, source and organisation are trimmed, blank optional ones dropped, flags and stamp kept |
| ContactForms.CleanOne | server-rs/src/db/contacts.rs:264-284 | an address survives, trimmed, unless it is blank; a phone number if it has a digit or a leading plus |
| ContactForms.AcceptedIff | server-rs/src/db/contacts.rs:307-337 | a contact is accepted exactly when a name other than the nickname, an address or a phone number in it says something and every address that is not blank has an at sign |
| ContactForms.BatchAcceptedIff | server-rs/src/db/contacts.rs:292-305 | a batch is accepted exactly when each of its contacts is and no two give the same id |
| Contacts.SaveThenRead | server-rs/src/db/contacts.rs:435-498 | after a save exactly that contact, with the new stamp, is readable under its id, resurrecting a tombstone; every other contact reads as before |
| Contacts.DeleteThenRead | server-rs/src/db/contacts.rs:198-214 | after a deletion the contact is gone, stamped, and every other reads as before |
| Contacts.SaveKeepsInv | server-rs/src/db/contacts.rs:435-498 | saving keeps the index columns equal to the normalised stored values |
| Contacts.DeleteKeepsInv | server-rs/src/db/contacts.rs:198-214 | so does deleting |
| Contacts.LookupIsScan | server-rs/src/db/contacts.rs:520-533 | a lookup in the index answers exactly like a scan of the live contacts |
| Contacts.MatchIsScan | server-rs/src/db/contacts.rs:500-533 | a match is found if and only if a scan of live contacts would find one, and by phone whenever any contact shares a phone |
| ContactForms.MatchIffInCommon | server-rs/src/db/contacts.rs:500-519 | read off the texts: a match is found exactly when a live contact has a phone number with the same digits and plus, or an address equal up to case, and phone numbers go first |
| ContactForms.FirstEntryDecides | server-rs/src/db/contacts.rs:504-518 | of several entries the first that any live contact has decides |
| ContactImport.ContactDatabase.FindMatchId | server-rs/src/db/contacts.rs:500-518 | the search loops return no match exactly when nothing matches, and otherwise a contact the first hit names |
| ContactImport.ContactDatabase.UpsertContact | server-rs/src/db/contacts.rs:178-196 | a valid contact is normalised and saved under its id or a fresh one; an invalid one changes nothing |
| ContactImport.ContactDatabase.DeleteContact | server-rs/src/db/contacts.rs:198-214 | a live row becomes a tombstone, anything else is left alone |
| ContactImport.ContactDatabase.ImportContactsMerge | server-rs/src/db/contacts.rs:216-253 | a bad batch changes nothing; a good one resolves and saves every contact in order, and the counts of created and updated contacts kept along the way add up to its length |
| ContactImport.ImportConserves | server-rs/src/db/contacts.rs:216-253 | an import grows the live count by exactly the creations, in-batch matches and resurrections included |
| ContactImport.MergedConserves | server-rs/src/db/contacts.rs:216-253 | the created count in the summary is that growth |
| ContactImport.ImportLeavesOthers | server-rs/src/db/contacts.rs:216-253 | contacts the batch does not address read as before |
| ContactImport.ImportLastWins | server-rs/src/db/contacts.rs:216-253 | an addressed contact reads as the last of the batch stored under its id |
| ContactImport.ImportKeepsInv | server-rs/src/db/contacts.rs:216-253 | imports keep the index columns normalised |
| ContactSync.CursorRoundTrip | server-rs/src/services/contacts.rs:180-189 | millis to Timestamp and back is exact if and only if ms is at least -9223372036854775000 |
| ContactSync.NanosTruncate | server-rs/src/services/contacts.rs:180-182 | nanoseconds of a cursor count as whole milliseconds toward zero, whatever their sign |
| ContactSync.PagesAreExact | server-rs/src/services/contacts.rs:57-133 | pages concatenate to the response list, number max(1, ceiling), only the last may be short, and their numbers and announced totals are right exactly when the count fits 32 bits |
| ContactSync.PageSizeIs | server-rs/src/services/contacts.rs:51-55 | a page size that is not positive means one hundred |
| ContactSync.ListChangesSince | server-rs/src/db/contacts.rs:135-152 | the response lists, each once, exactly the live contacts and tombstones modified after the cursor |
| ContactSync.ListEverything | server-rs/src/services/contacts.rs:86-112 | a full response lists, each once, the live contacts of the store at the first query and the tombstones of the store at the second |
| ContactSync.SyncConvergesIff | server-rs/src/db/contacts.rs:135-152 | a client that applies every page of a delta holds the live set if and only if it was right about every id not modified since |
| ContactSync.SyncConverges | server-rs/src/db/contacts.rs:435-458 | after any sequence of saves, deletions, resurrections and imports stamped later than the cursor, a client that held the live set at the cursor holds it again |
| ContactSync.ChangeAtCursorIsMissed | server-rs/src/db/contacts.rs:535-544 | after any operation stamped exactly at the cursor, a client that held the live set before is right if and only if the operation changed nothing readable |
| ContactSync.FullSyncConvergesIff | server-rs/src/services/contacts.rs:86-112 | with the store changing between its two queries, a full sync converges exactly when every id without a listed tombstone reads at the second as at the first or, if not live then, as the client has it |
| ContactSync.DisturbedFullSyncIff | server-rs/src/services/contacts.rs:86-112 | with any operations in between: exactly when also every contact live at the second query was the same at the first or was already with the client |
| ContactSync.UndisturbedFullSyncIff | server-rs/src/services/contacts.rs:86-112 | with none in between: exactly when every id the client holds is live or was deleted at a non-negative time |
| ContactSync.SavedBetweenIsMissed | server-rs/src/services/contacts.rs:86-94 | a contact created or resurrected between the two queries is missed by every client that does not already hold it |
| EsimRecord.RequestRecord.PushEvent | server-rs/src/esim.rs:663-669 | the event log keeps the newest 32 entries |
| EsimRecord.RequestRecord.HandleIncoming | server-rs/src/esim.rs:570-638 | one message changes the record as the receiving step does, whose effect over every history `EsimHistory` states from the messages alone |
| EsimHistory.EndsIsDecides | server-rs/src/esim.rs:529-568 | which messages end a request, by kind, operation and result: download-verify-enable by an enabling, an error of unknown operation or a failed download, any other by one of the six results |
| EsimHistory.EndedIff | server-rs/src/esim.rs:570-627 | without acceptances and bridge errors the record has a final event exactly when such a message came; it is the first of them, and the status says error for the three failing results and completed otherwise |
| EsimHistory.FinalFromHistory | server-rs/src/esim.rs:570-627 | in every history the final event is the last bridge error, or without one the first message that ends the request |
| EsimHistory.StatusFromHistory | server-rs/src/esim.rs:570-627 | in every history the status is what the last acceptance, bridge error or end of the request said, and running if there was none of them |
| EsimRecord.RecordSummarisesHistory | server-rs/src/esim.rs:579-629 | for every history the final event is the last bridge error, or else the first event final for the action, and the log is the last 32 messages that are not acceptances |
| EsimRecord.StatusSettles | server-rs/src/esim.rs:579-629 | after its final event only an acceptance or a bridge error changes a request's status |
| EsimRecord.SuccessfulDownloadIsNeverFinal | server-rs/src/esim.rs:529-552 | a download-verify-enable request never ends on a successful download result |
| EsimWait.WaitLosesNothing | server-rs/src/esim.rs:219-284 | in every interleaving with no timeout, lag or pruning, once all is delivered the waiter has returned if the first final event was wanted or a bridge error arrived |
| EsimWait.DeliveredIsBroadcast | server-rs/src/esim.rs:570-636 | a message is recorded if it is for this request and the record is there, and is broadcast whatever request it is for |
| EsimWait.ReturnsIff | server-rs/src/esim.rs:219-284 | it has returned exactly when the final event it read was wanted or a wanted event was broadcast after it subscribed |
| EsimWait.CanHangIff | server-rs/src/esim.rs:219-284 | from any state before or during a wait, some schedule with no timeout or pruning leaves it waiting with everything delivered exactly when the final event is not wanted and, once subscribed, nothing wanted is in the rest of the channel or about to be sent and the rest fits its capacity |
| EsimWait.WaitCanHangIff | server-rs/src/esim.rs:219-284 | for a caller about to wait, whatever wanted events have been recorded: exactly when there was no bridge error and the first event final for the action is not wanted |
| EsimWait.EarlierFinalHidesWantedEvent | server-rs/src/esim.rs:219-284 | a run in which a wanted event is recorded before the subscription behind another final event and the waiter never returns |
| EsimStore.RequestTable.Insert | server-rs/src/esim.rs:153-170 | the first lock section adds the record, replaces nothing else and prunes nothing |
| EsimStore.RequestTable.MarkSent | server-rs/src/esim.rs:187-194 | the second sets the status, and fails exactly when the record has been pruned since |
| EsimStore.EnqueueDoes | server-rs/src/esim.rs:153-194 | creating a request adds a pending record, marking it sent changes its status and nothing else |
| EsimStore.LateMarkHarmlessIff | server-rs/src/esim.rs:170-194 | messages handled between the two leave the status they would have left afterwards exactly when none was an acceptance, an error or a final event |
| EsimStore.RequestTable.HandleIncoming | server-rs/src/esim.rs:570-638 | a message prunes the table and then updates its own record |
| EsimStore.HandlingBoundsTheTable | server-rs/src/esim.rs:671-691 | after a message at most 256 records remain, all within the TTL, all but one unchanged, and none is kept that is older than an unexpired one dropped |
| EsimStore.LostOnlyToTtlOrNewer | server-rs/src/esim.rs:671-691 | a record is lost only to the TTL or to 256 records updated no earlier |
| EsimStore.MissingOnlyWhenStaleOrCrowdedOut | server-rs/src/esim.rs:671-691 | in every run at most 256 records and those created since the last pruning are held, and a record is missing only after the TTL or with 256 others updated no earlier |
| TopK.Prune | server-rs/src/esim.rs:671-691 | retain, sort and take keep unexpired entries only, at most the cap, and none older than an unexpired one dropped |
| TopK.Ordered | server-rs/src/esim.rs:676-689 | the sorted list holds every entry once, most recent first |
| TopK.PrunedWithinCap | server-rs/src/synapse/image_store.rs:65-86 | within the cap only expired entries go |
| ImageStore.LiveImageStore.PutImage | server-rs/src/synapse/image_store.rs:37-49 | putting prunes and then stores the bytes with a fresh access time |
| ImageStore.StoringAdds | server-rs/src/synapse/image_store.rs:37-49 | storing keeps what the prune keeps and adds the bytes with the current time |
| ImageStore.LiveImageStore.GetRefresh | server-rs/src/synapse/image_store.rs:52-61 | a lookup prunes, then returns and refreshes the entry if it is left |
| ImageStore.MissingOnlyWhenStaleOrCrowdedOut | server-rs/src/synapse/image_store.rs:36-86 | in every run at most 17 images are held, and one once put is missing only after 300 s idle or with 16 others accessed no earlier |
| ImageStore.LookupIsFaithful | server-rs/src/synapse/image_store.rs:52-61 | a lookup returns the bytes last put under the id, and misses only for those reasons |
| ImageStore.ImageInUseIsFound | server-rs/src/synapse/image_store.rs:36-86 | an image stored or looked up and found is found again with the same bytes as long as less than 300 s pass and fewer than 16 other ids are asked for |
| ImageStore.LookupChangesOnlyTheTime | server-rs/src/synapse/image_store.rs:52-61 | a lookup changes nothing but the time of the entry it finds and what the prune removes |
| Bf25.ParseStoreMetadata | hook/src/main/kotlin/com/penumbraos/hook/EsimLpaHooks.kt:575-712 | envelope check and bounded loop compute the walk the theorems are about |
| Bf25.WalkBody | hook/src/main/kotlin/com/penumbraos/hook/EsimLpaHooks.kt:596-706 | the while loop over offset, iterations and fields is the recursive walk |
| Bf25.OffsetsGrow | hook/src/main/kotlin/com/penumbraos/hook/EsimLpaHooks.kt:599-706 | for every text and every behaviour of the fillers at most 200 objects are tried, at strictly increasing offsets; with 32-bit wrap-around only the offset after the 200th turn can be negative, and any earlier one ends in an exception |
| Bf25.TurnTakesObject | hook/src/main/kotlin/com/penumbraos/hook/EsimLpaHooks.kt:602-705 | one turn at a well-formed object consumes exactly it and sets exactly its field |
| Bf25Objects.ObjectSetsItsField | hook/src/main/kotlin/com/penumbraos/hook/EsimLpaHooks.kt:628-695 | an object sets its own field and no other, exactly if its tag is one of the nine 5A, 91 to 95, 99, B6 and B7 and its content can be decoded |
| Bf25.ParseTakesEnvelope | hook/src/main/kotlin/com/penumbraos/hook/EsimLpaHooks.kt:575-712 | a well-formed body of at most 200 objects with one- or two-octet tags is walked boundary by boundary, and the fields are those of its objects |
| Bf25Objects.ParseTakesText | hook/src/main/kotlin/com/penumbraos/hook/EsimLpaHooks.kt:575-712 | the same for a text with a BF25 tag in either case, a length field that states its content, and at most 200 well-formed objects as content |
| Bf25Objects.OtherTagsThrow | hook/src/main/kotlin/com/penumbraos/hook/EsimLpaHooks.kt:578-582 | anything that does not begin with the BF25 tag is refused |
| Bf25Objects.EndOfText | hook/src/main/kotlin/com/penumbraos/hook/EsimLpaHooks.kt:598-615 | with fewer than two characters left, or the second octet of a tag missing, the walk ends without a field |
| Bf25Objects.FirstOctetIs | hook/src/main/kotlin/com/penumbraos/hook/EsimLpaHooks.kt:603-605 | a first octet is two hexadecimal digits or a signed one; anything else throws |
| Bf25.BoundariesEnd | hook/src/main/kotlin/com/penumbraos/hook/EsimLpaHooks.kt:588-591 | the last stop is exactly the end of the value |
| Bf25.FieldsAreLastOccurrences | hook/src/main/kotlin/com/penumbraos/hook/EsimLpaHooks.kt:625-683 | each known field holds its last decodable occurrence |
| Bf25.UnknownObjectsAreIgnored | hook/src/main/kotlin/com/penumbraos/hook/EsimLpaHooks.kt:676-683 | inserting an object with an unknown tag anywhere changes no field |
| Bf25.RecomputedSizeIsRightIff | hook/src/main/kotlin/com/penumbraos/hook/EsimLpaHooks.kt:657-671 | the recomputed size of the notification list is right if and only if its length octets are the shortest, and never too large |
| Bf25.LengthRoundTrip | hook/src/main/kotlin/com/penumbraos/hook/EsimLpaHooks.kt:726-736 | the shortest length octets of a number read back as that number, at the size computed from it |
| Bf25.CaseDoesNotMatter | hook/src/main/kotlin/com/penumbraos/hook/EsimLpaHooks.kt:608-623 | upper-casing the text changes no octet read from it |
| Bf25.ShortestIsShortest | hook/src/main/kotlin/com/penumbraos/hook/EsimLpaHooks.kt:726-736 | no definite length field is shorter than the one computed from its value |
| Conversations.ConversationStore.SaveUnderstandConversation | server-rs/src/db.rs:345-444 | a save picks a newest recent match of the marked message, or none if there is none, and rewrites or adds accordingly |
| Conversations.ConversationStore.FindRecent | server-rs/src/db.rs:387-402 | the query returns a newest matching recent conversation and nothing only when none matches |
| Conversations.PairsConcat | server-rs/src/db.rs:536-569 | converting a history in parts is converting it whole, and every pair is a non-empty message of it |
| ConversationRows.PairSays | server-rs/src/db.rs:536-569 | a message becomes its role with its text parts joined by spaces; a system message keeps its content |
| ConversationRows.JoinConcat | server-rs/src/db.rs:541-548 | two groups of texts are joined by one space |
| ConversationRows.MarkIs | server-rs/src/db.rs:355-367 | what is looked for is the last message that is not a system message, at the place where an equal one first stands |
| ConversationRows.SavedRowIs | server-rs/src/db.rs:404-440 | a new row carries the request's run id, time, utterance and vision flag; a merge leaves every row as it was; the messages are the history's, the utterance and the response |
| Conversations.ReachableIsNumbered | server-rs/src/db.rs:413-438 | in every reachable store each conversation's messages are numbered exactly 0 to n-1 |
| Conversations.SaveChangesOne | server-rs/src/db.rs:404-440 | a save changes one conversation, whose list becomes the history's pairs and the new exchange |
| Conversations.RowAddedIff | server-rs/src/db.rs:354-402 | a row is added exactly when nothing was said before or no recent conversation holds the last spoken pair at its first position in the history |
| Conversations.ContinuationAddsNoRow | server-rs/src/db.rs:354-402 | a request that carries exactly what a recent conversation stores adds no row |
| Conversations.SureToMergeIff | server-rs/src/db.rs:387-402 | a request is sure to be merged into a conversation if and only if that one is recent and holds the last spoken pair at its first position, and no other recent conversation created no earlier does |
| Conversations.MergesHereIff | server-rs/src/db.rs:387-402 | for a request carrying exactly what a recent conversation stores: if and only if there is no such other |
| Conversations.CarriedOnHoldsIff | server-rs/src/db.rs:354-376 | for one carrying everything said, without the empty texts: the conversation just saved holds the pair unless the utterance was empty and the response is new |
| Conversations.FollowUpMerges | server-rs/src/db.rs:345-444 | the next request of a conversation adds no row, and without such a rival the conversation grows by exactly the new exchange |
| Conversations.SessionStaysTogether | server-rs/src/db.rs:345-444 | a client that starts when all stored conversations are older, and whose requests of the next ten minutes each carry what was saved before, has them all in one conversation, with no further row and nothing else touched |
| Conversations.SafeToSaveIff | server-rs/src/db.rs:404-421 | before a save, no stored message can be lost exactly when every newest recent conversation that holds the last spoken pair at its first position is a beginning of what will be saved |
| Conversations.ChosenIff | server-rs/src/db.rs:387-402 | the query can pick exactly those newest conversations, and nothing only if there is none |
| Conversations.StrangerIsOverwritten | server-rs/src/db.rs:387-421 | a store and a request for which an unrelated conversation's messages are lost |
| TomlOverlay.MergeToml | server-rs/src/config.rs:471-487 | the recursive loop over overlay keys computes the merge |
| TomlOverlay.PathLaw | server-rs/src/config.rs:471-487 | at every path the overlay decides where it says something, its leaves hide what is below, every other base path survives and nothing else appears |
| TomlOverlay.SameEverywhereIsEqual | server-rs/src/config.rs:471-487 | that law determines the result: equal at every path is equal |
| TomlOverlay.MergeWithItself | server-rs/src/config.rs:471-487 | merging a file with itself changes nothing |
| TomlOverlay.MergeTwice | server-rs/src/config.rs:471-487 | applying an overlay twice is applying it once |
| TomlOverlay.AssociativeIff | server-rs/src/config.rs:471-487 | overlays may be combined first exactly when no leaf of the middle file stands between a path of the first and a table of the last |
| TomlOverlay.AssociativeWhenShapesAgree | server-rs/src/config.rs:471-487 | in particular when no path is a leaf in the one and a table in the other |
| OpenAiHistory.OpenAiMessagesToUnderstand | server-rs/src/bin/openai-proxy.rs:261-329 | the loop over messages, turns and last user index computes the conversion, errors included |
| OpenAiHistory.ExtractHistory | server-rs/src/synapse/conversation.rs:29-125 | the loop over turns computes the history, skipping the last user request |
| HistoryTurns.RequestSays | server-rs/src/synapse/conversation.rs:53-89 | a user request says its repaired text, or the original one, with its own image before one stored under its identifier; without any text it is dropped |
| HistoryTurns.ActionSays | server-rs/src/synapse/conversation.rs:91-104 | of the actions only an answer with a text says anything, and the assistant says it |
| HistoryTurns.PlainSays | server-rs/src/synapse/conversation.rs:106-124 | a plain message with a text is said by the assistant, the system or else the user |
| HistoryTurns.HistoryAround | server-rs/src/synapse/conversation.rs:36-47 | the history is what the turns before and after the last user request say, in order |
| OpenAiHistory.AcceptedIff | server-rs/src/bin/openai-proxy.rs:261-329 | a list is accepted exactly when its non-blank messages have known roles and include a user's |
| HistoryTurns.ProxyTurnIs | server-rs/src/bin/openai-proxy.rs:272-302 | a chat message becomes a request, an answer or a plain message by its role, with no identifier and nothing repaired |
| HistoryTurns.RefusedFor | server-rs/src/bin/openai-proxy.rs:267-309 | a list is refused for the role of its first message that is neither blank nor of a known role |
| HistoryTurns.RefusedWithoutUser | server-rs/src/bin/openai-proxy.rs:312-317 | with known roles only, it is refused exactly when every message of the user is blank |
| OpenAiHistory.Composition | server-rs/src/services/aibus/understand.rs:216-250 | proxy then server gives the non-blank messages in order without the last user message, which is the utterance, and without the last user message that then remains |
| OpenAiHistory.NothingElseLostIff | server-rs/src/synapse/conversation.rs:29-45 | nothing but the utterance is missing if and only if there is a single non-blank user message |
| ProxiedConversations.FollowUpHistory | server-rs/src/bin/openai-proxy.rs:261-329 | a follow-up through the proxy carries the earlier messages and the reply, without the utterance it answered |
| ProxiedConversations.ProxiedFollowUpMergesIff | server-rs/src/db.rs:354-402 | proxy, server and store together: a follow-up is sure to be merged into the conversation its predecessor saved if and only if that one is recent, something was said before, the pair looked for stands in place in spite of the dropped messages, and there is no rival |
| ProxiedConversations.NewReplyInPlaceIff | server-rs/src/db.rs:354-376 | for a reply not given before it stands in place exactly when the request before already carried two user messages, so the first follow-up of a chat adds a second row |
| CaptureBroker.SharedBroker.RequestCapture | server-rs/src/capture_broker.rs:59-68 | a request replaces the pending one |
| CaptureBroker.SharedBroker.Publish | server-rs/src/capture_broker.rs:71-86 | an upload raises the counter, saturating, consumes the pending request and becomes the latest frame |
| CaptureBroker.SharedBroker.Look | server-rs/src/capture_broker.rs:101-107 | a look takes the latest frame exactly if it is newer than asked |
| CaptureWait.PublishesAreNumbered | server-rs/src/capture_broker.rs:71-86 | in every run the counter and the latest frame's generation equal the number of uploads up to saturation, generations rise strictly below it, and no request id names two frames |
| CaptureWait.NextUploadAnswersRequest | server-rs/src/capture_broker.rs:59-86 | the first upload after a request carries its id, question and the uploaded bytes; the next one, unasked, carries a fresh id |
| CaptureWait.DeliveredIsNew | server-rs/src/api.rs:365-370 | a wait returns only a frame newer than its argument and uploaded after the generation was read |
| CaptureWait.WaitedFrameIsNew | server-rs/src/api.rs:365-370 | a caller that reads the generation and waits gets a frame uploaded after that, newer than the generation it read and the one it was asked for |
| CaptureWait.GivingUpIsJustified | server-rs/src/capture_broker.rs:93-128 | a wait gives up only if its last look saw nothing newer, and after sleeping only if nothing newer came before the deadline |
| CaptureWait.GivesUpAfterTimeout | server-rs/src/capture_broker.rs:93-128 | a wait gives up no sooner than its timeout after it began |
| CaptureWait.NewerFrameIsDelivered | server-rs/src/capture_broker.rs:98-128 | from any point where the waiter still has a look before it, a newer frame already present is never lost, in any schedule |
| CaptureWait.LostNotificationIsRecovered | server-rs/src/capture_broker.rs:115-124 | a listening waiter whose notification was lost returns the frame at the deadline |
| CaptureWait.NoTimeLeftCanMiss | server-rs/src/capture_broker.rs:110-113 | a run in which the exit for no time left misses a frame that came before the deadline |
| CaptureWait.CanMissIff | server-rs/src/capture_broker.rs:98-128 | from any state of a wait, exactly when some schedule misses a newer frame that came before the deadline |
| CaptureWait.CallCanMissIff | server-rs/src/capture_broker.rs:93-128 | for a caller: exactly when the timeout is positive and the generation asked for is not there yet but can still be exceeded |
| Text.TrimSplits | server-rs/src/db/contacts.rs:546-548 | trimming removes exactly a blank prefix and a blank suffix |
| Text.TrimEmptyIffBlank | server-rs/src/bin/openai-proxy.rs:268-270 | a text trims to nothing exactly when it is all whitespace |

## Left out

- LLM providers, prompt rendering, network clients, certificates, provisioning stubs, regex intent tables, Xposed installation and logging: other programs decide them, or they have no state worth a theorem.
- SQLite, files, pipes and sockets: tables are maps and sequences, streams are sequences of chunks; I/O failures, hash-collision file names and the collation order of contact lists are not modelled.
- Requests that bypass coalescing (methods without a TTL, bodies that cannot be read) do not enter the dedup model.
- The Int generation counter of the hand-tracking timer does not wrap, and `stop()` does not throw before its hook.
- The track does not switch while a Spotify response is being served; librespot is not restarted within one run.
- Contacts.NormalizeEmailIdempotent: lower-casing is ASCII only, where the source folds all of Unicode.
- ContactSync.CursorRoundTrip: the 64-bit product saturates as in the source, but a Timestamp whose seconds and nanoseconds overflow the sum is not produced here.
- eSIM acceptance channels, cellular and Wi-Fi toggles; the clock that stamps records does not run backwards.
- EsimWait.WaitLosesNothing: one waiter and one request; other waiters only read, and records of other requests do not matter to it.
- Bf25.ParseStoreMetadata: the foreign filler methods are a parameter and the foreign length helpers follow X.690; digits outside ASCII, which Kotlin's parser also takes, count as malformed.
- Bf25.ParseTakesEnvelope: tags of three or more octets are not well-formed for the walker, which reads at most two.
- Conversations.ConversationStore.FindRecent: creation times compare as numbers; the source compares their decimal text, which agrees while they have ten digits.
- The other writer of conversations, `save_conversation`, and the listing queries.
- OpenAiHistory.ExtractHistory: the image store is a fixed map during the call; JSON is a value rather than text.
- ProxiedConversations.ProxiedFollowUpMergesIff: text exchanges whose save has finished when the follow-up is saved; the server saves in the background.
- CaptureWait.NewerFrameIsDelivered: a single waiter, because waiters never change the broker; capture times are not part of a frame.
- SettingsSteps.DropAgreesIff: persisting the configuration to disk, which comes after the clear without a further await, is not modelled.
- TomlOverlay.MergeToml: tables and leaves only; arrays are leaves, as the source treats them.
