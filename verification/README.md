# douyinLive in Dafny

douyinLive listens to the message stream of a Douyin live room: it signs and dials an upstream WebSocket,
keeps it alive and redials it, and hands the messages to subscribers and to the clients of a small server.
This project models the parts of it whose correctness needs a loop, an inverse, or a whole run of concurrent
goroutines, and proves what they are for.

- `Bits`, `Xxtea`, `Packing`, `Utf8`, `CipherStack`, `Rc4`: the ciphers and codecs of the bundled
  `webmssdk.js`. Encrypting and decrypting are array algorithms that overwrite their input; the main result is
  that the whole stack from string to string inverts itself, and exactly up to which lengths.
- `Sm3Standard`, `Sm3`: the hash function of GB/T 32905-2016, and the hand-written streaming hasher of
  `sign/ab_sign.go` as a class that refines it.
- `SignerSession`: the local WebSocket signer with its two mutexes, one of which is released while an
  expensive runtime is built. Threads run as program counters over atomic sections.
- `Backoff`, `Listener`: the reconnect plan in 64-bit arithmetic, and the listener's life: one Start, any number
  of Close and Dispose calls, heartbeat goroutines, and status changes from outside.
- `Monitor`, `MonitorRuns`, `MonitorInvariant`, `MonitorResults`, `MonitorWitnesses`: the monitor loops of a room,
  the goroutines that start and run its live sessions, its clients, and every section of the server that writes the
  same fields.
- `MessageBus`: subscribe, unsubscribe by an in-place shift, and a dispatch that tolerates both while it runs.
- `JsonScan`: the brace matcher that cuts JSON objects out of pages.
- `StatusProbe`: the three-source live-status probe and its error sentinels.
- `Text`, `Cookies`: trimming, and the cookie header as a parse and print pair.
- `Options`: results that may be missing.

## How the concurrent parts are modelled

A critical section of the code, what runs under one mutex without a break, is a function from the guarded
fields to the new fields. The same sections are methods of a class with those fields, each proved to do what its
function says. A state machine runs the functions as atomic steps of any number of threads in any order; clocks,
tickers, the network and everything that other code decides appear as free choices of a move. Theorems hold for
every number of threads and every sequence of moves. A resource (a signer runtime, a connection, a stop
channel) is a token: it is counted in the ledger of closes, in the field that stores it, and in the program
counter of a thread that is about to close it, and the sum is proved to be one at all times.

## Findings

- The text cipher is inverted exactly for texts of up to 2^31 - 8 UTF-8 bytes and keys whose word count the script can
  hold, among them all keys of fewer than 2^31 bytes. Both limits are the signed 32-bit shifts of `_0x75d5b3` and
  `_0x183951` (`jsScript/webmssdk.js:4216-4240`).
- Not every connection is closed when Start returns: Close or a heartbeat may have taken it out of its field and
  not yet closed it. `Listener.ClosedListenerIff` gives the exact condition and
  `Listener.StartMayReturnBeforeTheClose` a run.
- At each read error the failure count and the offline count are zero, so the branch that ends the loop on a
  confirmed offline status (`reconnect.go:129-131`) and the client rebuild of a fourth failure are never reached
  from there, and the delay never grows.
- The promise for monitor loops (`internal/server/room_monitor.go:11-13`) holds for a loop whose generation has
  passed: it neither commits nor notifies. A loop that only lost its slot is not held back in its own
  startLiveSession (`internal/server/room_monitor.go:223`): promoteProbeLive
  (`internal/server/room_session.go:108-125`) asks for the generation and the instance, not for the loop, so a retired
  loop may replace a connected live session. It needs two starts of one generation, which a late
  clearStartingForGeneration (`internal/server/room_client.go:592-600`) lets in.
- The eviction of clients (`internal/server/room_monitor.go:240`) goes by the generation alone too, but no retired
  loop of the present generation ever reaches it.
- With two starts of one generation the failure of one ends the generation and leaves the live session of the other in
  its place (`internal/server/room_client.go:732-755`). Nobody runs that session, and clients that join are not
  served until all have left: `MonitorWitnesses.ClientMayBeStranded`.
- `ErrUpstreamAccessRestricted` is documented for callers (`constants.go:38-41`), but a probe never returns it: its
  text is mistaken for an empty response and rewrapped with `%v` at `room_info.go:1172`.

## Model

| member | source | states |
|---|---|---|
| Xxtea.Encrypt | jsScript/webmssdk.js:4256-4270 | the array afterwards is `Encrypted` of the array before, in place, for every length and key |
| Xxtea.Decrypt | jsScript/webmssdk.js:4272-4285 | the array afterwards is `Decrypted` of the array before, in place |
| Xxtea.EncryptWith | jsScript/webmssdk.js:4256-4270 | the running sum, the carried neighbour and the in-place updates amount to `Rounds(n)` ascending rounds of any mixer |
| Xxtea.DecryptWith | jsScript/webmssdk.js:4272-4285 | the loop that stops at `sum == 0` makes exactly the `Rounds(n)` descending rounds of any mixer |
| Xxtea.DecryptInvertsEncrypt | jsScript/webmssdk.js:4256-4285 | decryption undoes encryption for every array of two or more words and every key |
| Xxtea.EncryptInvertsDecrypt | jsScript/webmssdk.js:4256-4285 | encryption undoes decryption, so both permute the arrays of a length |
| Xxtea.ScheduleVanishesOnlyAtZero | jsScript/webmssdk.js:4214 | no multiple `r * delta` with 0 < r < 2^32 vanishes modulo 2^32 |
| Xxtea.GainIgnoresOwnWord | jsScript/webmssdk.js:4246-4248 | what a position gains in a round does not depend on its own word once there are two words |
| Xxtea.KeyIndex | jsScript/webmssdk.js:4246-4248 | the key index `(p & 3) ^ e` always names one of the four key words |
| Packing.Pack | jsScript/webmssdk.js:4232-4240 | the word array built by or-ing units into lanes is `Packed`, with or without the length word and with the script's signed word count, or the exception when that count is negative |
| Packing.Unpack | jsScript/webmssdk.js:4216-4230 | bytes and length check of unpacking are `Unpacked`, including the null result |
| Packing.UnpackInvertsPack | jsScript/webmssdk.js:4216-4240 | unpacking with the length word gives back a byte string if and only if it has at most 2^31 - 8 bytes |
| Packing.PackInvertsUnpack | jsScript/webmssdk.js:4216-4240 | packing the bytes of a word array gives that array back if and only if it has fewer than 2^29 words |
| Packing.AccumulatedSum | jsScript/webmssdk.js:4232-4240 | or-ing bytes into lanes adds them up with weights 1, 2^8, 2^16, 2^24 |
| Utf8.Encode | jsScript/webmssdk.js:4287-4317 | the encoder loop computes `Encoded`, with its ASCII shortcut and its exception |
| Utf8.EncoderMeetsRfc3629 | jsScript/webmssdk.js:4287-4317 | encoding succeeds exactly on well-formed UTF-16 and yields the byte sequences of section 3 of RFC 3629 for its code points in order |
| Utf8.DecodeSimple | jsScript/webmssdk.js:4319-4360 | the array decoder computes `DecodedFrom` for every input and limit |
| Utf8.DecodeChunked | jsScript/webmssdk.js:4362-4411 | the chunked decoder computes the same function as the simple one on every input and never leaves its 32768 slots |
| Utf8.Decode | jsScript/webmssdk.js:4413-4417 | choosing between the decoders and the ASCII shortcut is `Decoded` |
| Utf8.DecodeInvertsEncode | jsScript/webmssdk.js:4287-4417 | decoding undoes encoding for every well-formed string |
| Utf8.CutIsNotDecoded | jsScript/webmssdk.js:4319-4417 | no proper prefix of an encoded string decodes to that string |
| CipherStack.PadKey | jsScript/webmssdk.js:4250-4254 | a key shorter than four words is padded with zero words |
| CipherStack.Encrypt | jsScript/webmssdk.js:4419-4424 | encode, pack, encrypt in place and unpack compose to `Encrypted`, with every exception; a missing text is passed through |
| CipherStack.Decrypt | jsScript/webmssdk.js:4426-4430 | pack, decrypt in place, unpack and decode compose to `Decrypted`, with every exception; a missing text is passed through |
| CipherStack.DecryptInvertsEncrypt | jsScript/webmssdk.js:4413-4430 | for every encodable string and key, decrypting the encrypted string gives it back if and only if it is empty, or its UTF-8 form has at most 2^31 - 8 bytes and the script's signed word count of the key is not negative |
| CipherStack.ShortKeyFits | jsScript/webmssdk.js:4232-4240 | every key of fewer than 2^31 bytes has a word count the script can pack |
| CipherStack.BytesRoundTrip | jsScript/webmssdk.js:4419-4430 | on bytes: decryption hands back exactly what was packed, or refuses a cipher text of 2^31 bytes or more |
| CipherStack.UnpairedSurrogatesAreRefused | jsScript/webmssdk.js:4287-4317 | a string or key with an unpaired surrogate is refused before anything is encrypted |
| Rc4.Apply | jsScript/webmssdk.js:5499-5517 | the shuffled array and its two cursors produce `Applied`, for the empty key too, with which the script indexes by NaN |
| Rc4.Generated | jsScript/webmssdk.js:5509-5515 | after any number of units the table is still a permutation of 0..255 if the key is not empty |
| Rc4.Scheduled | jsScript/webmssdk.js:5502-5508 | so it is after any number of key-schedule steps |
| Rc4.ApplyIsInvolution | jsScript/webmssdk.js:5499-5517 | applying RC4 twice with the same key gives every string back |
| Sm3.FunctionsAgree | sign/ab_sign.go:42-84 | the constants and boolean functions of the code are those of section 4 of GB/T 32905-2016 |
| Sm3.Expand | sign/ab_sign.go:146-165 | the in-place expansion w[0..131] holds W_0..W_67 and then W'_0..W'_63 of section 5.3.2 |
| Sm3.Turn | sign/ab_sign.go:166-184 | one pass over the eight rotating registers is one round of section 5.3.3 |
| Sm3.Hasher.Compress | sign/ab_sign.go:140-188 | the registers become the compression function of section 5.3.3 of registers and block; a short block changes nothing |
| Sm3.Hasher.Reset | sign/ab_sign.go:29-38 | a reset hasher has absorbed nothing |
| Sm3.Hasher.Write | sign/ab_sign.go:90-108 | the hasher has absorbed the old content followed by the data, with fewer than 64 bytes waiting |
| Sm3.Hasher.Fill | sign/ab_sign.go:114-134 | the waiting bytes are followed by the padding of section 5.2 and fill whole blocks |
| Sm3.Hasher.Sum | sign/ab_sign.go:194-214 | the digest is SM3 of the argument, or of everything written; the hasher starts afresh |
| Sm3.HashPieces | sign/ab_sign.go:90-214 | for any way of cutting a message into writes, the digest is SM3 of the whole message |
| Sm3.ChainedPrefix | sign/ab_sign.go:90-108 | bytes written later do not change the chaining value of complete blocks |
| Sm3.BigEndianHalves | sign/ab_sign.go:124-134 | two 32-bit halves written in turn are the 64-bit big-endian length |
| Sm3Standard.PaddingIsMinimal | sign/ab_sign.go:114-134 | the padding is the mark, fewest zero bytes and the 64-bit length in bits, and the whole a multiple of 64 bytes |
| SignerSession.Signer.Prepare | websocket_signer.go:137-166 | the section of Prepare under `mu`, as a function of the old state |
| SignerSession.Signer.UpdateBrowserFingerprint | websocket_signer.go:175-193 | the section of UpdateBrowserFingerprint, as a function of the old state |
| SignerSession.Signer.ActivateFallback | websocket_signer.go:227-252 | whether ActivateFallback returns at once or for which profile it builds |
| SignerSession.Signer.Install | websocket_signer.go:261-293 | the section that installs a built runtime: what is installed, what is closed, what is returned |
| SignerSession.Signer.Close | websocket_signer.go:299-319 | the section of Close, as a function of the old state |
| SignerSession.Signer.Sign | websocket_signer.go:200-222 | which implementation or error Sign chooses |
| SignerSession.EachRuntimeInOnePlace | websocket_signer.go:137-319 | in every interleaving each runtime built is closed exactly once, or held, or in flight with one thread, and never two of these |
| SignerSession.SignEntersMatchingOpenRuntime | websocket_signer.go:200-222 | Sign only enters a runtime that is open and was built for the current user agent, cookie and profile |
| SignerSession.HeldRuntimeServesSigner | websocket_signer.go:137-293 | a held runtime is open and matches the current user agent, cookie and non-empty profile, and the signer is open and in fallback mode |
| SignerSession.InstallNeverMismatches | websocket_signer.go:261-293 | an install finds the signer closed or unchanged: the mismatch branch is never taken and no held runtime replaced |
| SignerSession.ClosedSignerLeaksNothing | websocket_signer.go:299-319 | once closed and quiet, every runtime ever built is closed exactly once |
| SignerSession.ClosedStaysClosed | websocket_signer.go:299-319 | no step clears `closed` |
| SignerSession.StepKeepsInv | websocket_signer.go:137-319 | every step of every thread keeps the accounting, the lock, the match and what lock holders know |
| SignerSession.StepKeepsKnowledge | websocket_signer.go:137-293 | a step of another thread cannot take away what a holder of `fallbackMu` knows |
| SignerSession.TokensMove | websocket_signer.go:137-319 | a step hands each runtime on between list, session and thread without creating or losing one |
| Backoff.ReconnectPlan | reconnect.go:21-70 | delay, user-agent and rebuild flags for every reason, count and base, in 64-bit arithmetic |
| Backoff.BackoffIsIdeal | reconnect.go:28-40 | for counts 1 to 31 and bases up to 5 seconds the delay is the base doubled per failure, at most a minute |
| Backoff.BackoffGrows | reconnect.go:28-40 | there, more failures never shorten the wait, and it stays between the base and a minute |
| Backoff.BackoffIsIdealIff | reconnect.go:28-40 | for every base and count: the delay is the ideal one if and only if the product fits into 64 bits or its remainder is a minute or more |
| Backoff.BackoffOverflows | reconnect.go:28-40 | at the 32nd failure a base of 5 seconds gives a negative delay |
| Backoff.BackoffVanishes | reconnect.go:28-40 | from the 65th failure on the delay is zero |
| Backoff.FirstWait | reconnect.go:76-107 | the first wait after any retried error lies in [1.5 s, 6.2 s) |
| Listener.LiveStatusGuard.Record | live_status.go:13-20 | an online result clears the count, the second offline result in a row confirms |
| Listener.Listener.BeginStart | lifecycle.go:20-37 | the single start, with its three outcomes |
| Listener.Listener.BeginClose | lifecycle.go:39-49 | manual close is set and the phase moves on |
| Listener.Listener.SetLiveStatus | live_status.go:32-40 | status and knowledge are set; going live clears the guard |
| Listener.Listener.ShouldCloseAfterStatusCheck | live_status.go:91-104 | the guard decides, and the status follows |
| Listener.EachHandleInOnePlace | lifecycle.go:71-178 | in every run each connection dialed and each stop channel made is closed exactly once, or stored, or carried by one goroutine, never two of these |
| Listener.NothingIsOverwritten | reconnect.go:207-214 | no install of a connection or of a heartbeat overwrites a stored one |
| Listener.ReadErrorsFindZeroCounters | reconnect.go:113-153 | at every read error of every run both retry counters are zero, the status check never ends the loop there, the recorded count is 1, and each wait lies in [1.5 s, 6.2 s) without a rebuild |
| Listener.ClosedListenerIff | lifecycle.go:131-178 | when the phase is Closed nothing is stored, Start has returned, and everything made is closed exactly once if and only if no other goroutine still carries something to close |
| Listener.QuietListenerLeaksNothing | lifecycle.go:131-178 | once the phase is Closed, every call has returned and every heartbeat has ended, everything made is closed exactly once |
| Listener.StartMayReturnBeforeTheClose | lifecycle.go:71-178 | a run in which Start has returned while Close still holds the unclosed connection |
| Listener.ReadyAndReleasedOnce | websocket_connection.go:202-210 | over every run the ready channel is closed and the session profile released at most once |
| Listener.RunMovesForward | lifecycle.go:20-55 | over any continuation of a run the phase only moves forward and manual close, cancellation, ready and release marks never go back |
| Listener.StartsAtMostOnce | lifecycle.go:20-37 | at most one call of Start in a run gets past beginStart |
| Listener.StepKeepsInv | lifecycle.go:71-178 | every step of every goroutine, and every status change by other callers, keeps the accounting and what Start's goroutine knows |
| Listener.FrameKeepsKnowledge | heartbeat.go:133-166 | what Close, Dispose and heartbeats may change never invalidates what Start's goroutine knows |
| Monitor.Room.InstallMonitorLoopLocked | internal/server/room_monitor.go:59-72 | a loop is installed only in an open room of that generation without upstream and without monitor |
| Monitor.Room.TransitionToMonitorForGeneration | internal/server/room_monitor.go:78-103 | the whole transition as a function of the old state, with its three outcomes |
| Monitor.Room.SnapshotClientsForMonitor | internal/server/room_monitor.go:118-133 | clients and status for a current loop, nothing otherwise |
| Monitor.Room.BeginMonitorProbe | internal/server/room_monitor.go:135-155 | whether to probe, whether to go on, and the new state |
| Monitor.Room.CompleteMonitorProbe | internal/server/room_monitor.go:157-165 | what a current loop is told, and the new state |
| Monitor.Room.CommitMonitorStatus | internal/server/room_monitor.go:167-184 | what a current loop commits and whom it may tell |
| Monitor.Room.Finish | internal/server/room_monitor.go:42-54 | the slot is cleared only if it holds this loop |
| MonitorInvariant.StepKeepsInv | internal/server/room_monitor.go:35-287 | every step of every goroutine keeps slot, channels and client generations in order |
| MonitorInvariant.StepKeepsSole | internal/server/room_client.go:497-500 | while the room is not known to be valid at most one goroutine of the generation attempts to start it, with `starting` or the slot to show for it |
| MonitorInvariant.StepKeepsBorn | internal/server/room_session.go:18-56 | a goroutine only works with upstream instances built for its own generation, and the probe is one of the present generation |
| MonitorInvariant.RunKeepsGood | internal/server/room_monitor.go:35-287 | these three hold in every run |
| MonitorResults.SlotHoldsLiveCurrentLoop | internal/server/room_monitor.go:35-72 | in every run the slot holds no finished loop and none of another generation, each channel is closed at most once, and a loop outside the slot is stopped or finishing |
| MonitorResults.RetiredForever | internal/server/room_monitor.go:59-184 | a retired loop stays retired over every continuation |
| MonitorResults.EvictingLoopHoldsSlot | internal/server/room_monitor.go:230-241 | the eviction goes by the generation alone, but in every run a loop that comes to it in its own generation still holds the slot, in a room never found valid |
| MonitorResults.RetiredLoopWritesExactly | internal/server/room_monitor.go:118-268 | a retired loop notifies nobody, and its step changes the room exactly in the listed steps of its own startLiveSession, or to clear its own slot |
| MonitorResults.RetiredLoopCommitsOnlyByPromoting | internal/server/room_session.go:129-195 | apart from the promotion no step of a retired loop changes what clients see, the slots of other loops or live sessions it did not bring in |
| MonitorResults.RetiredLoopPromotes | internal/server/room_session.go:108-125 | at the promotion a retired loop of the present generation takes the place of the live session there is and stops the loop in the slot |
| MonitorWitnesses.RetiredLoopMayPromote | internal/server/room_session.go:108-125 | a run in which a retired loop is about to replace a connected live session |
| MonitorResults.SupersededLoopIsHarmless | internal/server/room_monitor.go:11-13 | a loop of an earlier generation, or in a closed room, neither commits nor notifies: it can give up only its own live session and its own slot |
| MonitorResults.RetiredLoopEnds | internal/server/room_monitor.go:199-218 | every move a retired loop can make from its select leads out of the loop, and one is always possible |
| MonitorResults.NotifiesOwnGeneration | internal/server/room_monitor.go:118-184 | a loop notifies exactly the room's clients, and all of them joined in its own generation |
| MonitorResults.FinishSparesSuccessors | internal/server/room_monitor.go:42-54 | finishing changes nothing but the loop's own slot |
| MonitorResults.LiveIsPresentUntilFailure | internal/server/room_client.go:732-755 | the live session stays one of the present generation except through a start that fails beside it, and then always ceases to be |
| MonitorWitnesses.ClientMayBeStranded | internal/server/room_client.go:732-755 | a run that ends in an open room with a client, a live session of an ended generation, and no goroutine left |
| MonitorResults.StrandedStays | internal/server/room_client.go:468-475 | from there no client is served until all have left or the room is closed |
| MessageBus.Bus.Append | live_message.go:146-152 | the list grows by one at the end, in place or in a new buffer |
| MessageBus.Bus.Subscribe | live_message.go:115-137 | the id and the new subscriber, or "" and no change for a missing handler or an empty method list |
| MessageBus.Bus.SubscribeLegacy | live_message.go:139-144 | the id and the new legacy subscriber, or "" and no change |
| MessageBus.Bus.Unsubscribe | live_message.go:158-172 | the first subscriber of that id is gone, the others keep their order, in the same buffer |
| MessageBus.Bus.ShiftOver | live_message.go:166-170 | the in-place shift removes exactly one element |
| MessageBus.Bus.HasSubscriber | live_message.go:178-192 | true exactly for a non-empty id in the list |
| MessageBus.Bus.TakeTurn | live_message.go:211-221 | one subscriber's turn: stop, presence, kind and method in this order |
| MessageBus.Bus.Publish | live_message.go:201-224 | the dispatch over the copied list is `Dispatched`, whatever handlers and other goroutines do to the list meanwhile |
| MessageBus.CallsAreOrderedCandidates | live_message.go:201-224 | the calls are an in-order subsequence of the snapshot's legacy subscribers followed by its accepting ones, each at most once |
| MessageBus.RemovedBeforeItsTurnIsNotCalled | live_message.go:213-215 | a subscriber removed before its turn is never called |
| MessageBus.StopLeavesAtMostOne | live_message.go:209-212 | once `stop` stays true, at most one more handler begins |
| MessageBus.UndisturbedCallsAll | live_message.go:201-224 | without unsubscribing and stopping, exactly the candidates are called in order, whatever is subscribed meanwhile |
| MessageBus.WithoutAt | live_message.go:158-172 | removing the first match is cutting it out of the list |
| JsonScan.JsonObjectAt | room_info.go:447-480 | the loop with depth and the two string flags computes `ObjectAt` for every body and index |
| JsonScan.FindsEveryObject | room_info.go:447-480 | wherever the text of an object of sections 2 to 7 of RFC 8259 stands, exactly that text is returned |
| JsonScan.ObjectIsShortestBalanced | room_info.go:447-480 | the result is the shortest prefix whose braces outside string literals balance, and empty exactly if there is none |
| JsonScan.QuotedPasses | room_info.go:457-467 | a string literal never changes the depth, whatever braces and escaped quotes it contains |
| JsonScan.ValuePasses | room_info.go:447-480 | the text of any value leaves the scan where it was |
| JsonScan.DepthIsBalance | room_info.go:447-480 | the depth is the balance of braces outside string literals |
| StatusProbe.Prober.FetchLivePageState | room_info.go:698-748 | state and error after the page, from a status first marked unknown |
| StatusProbe.Prober.RequestRoomEnter | room_info.go:806-826 | the retry loop: which attempts are made and what it returns |
| StatusProbe.Prober.RefreshRoomEnterDataAfterLivePage | room_info.go:803-875 | what a refresh stores and returns, with its three ways to fail and its fallback |
| StatusProbe.Prober.FetchLiveStatusFromAPI | room_info.go:1100-1182 | state and result of a whole probe, including a listener that is closed or whose context cannot be prepared |
| StatusProbe.VerdictIsStated | room_info.go:1100-1182 | a verdict is the status stated by a response received in the same call, and the status then held as known |
| StatusProbe.EarlierStatusIsIgnored | room_info.go:1114-1118 | two listeners that differ only in the status held before get the same result |
| StatusProbe.RoomNotFoundIff | room_info.go:1011-1041 | exactly when a probe that is let in reports a missing room: a 404 or 410 page without identity, no trace of the room, and an empty web/enter |
| StatusProbe.BlankPageIsUnknown | room_info.go:1160-1174 | any other page without identity and an empty web/enter always end as an unknown status |
| StatusProbe.RestrictedNeverSurfaces | room_info.go:1160-1174 | the sentinel for restricted access never reaches the caller of a probe |
| StatusProbe.AttemptsOfUnknown | room_info.go:806-826 | while the status is unknown the attempts end empty exactly for these sequences of replies |
| Cookies.ParseCookies | sign/cookie_manager.go:105-124 | the loop computes `Parsed` |
| Cookies.CookieParts | protocol_profile.go:139-152 | the parts of the profile's fixed cookies not yet present, in order; none for the Web profile |
| Cookies.GetCookieParts | cookie_context.go:18-43 | the parts of the cookies in effect: the configured ones, or ttwid and its companions sorted by name, and then the fixed ones not among them |
| Cookies.CookieValue | cookie_context.go:59-79 | the value of the first configured cookie of the trimmed name, or without configuration ttwid or one of its companions |
| Text.SortedNames | cookie_context.go:33-41 | the names in ascending order, each once |
| Text.OrderIsUnique | cookie_context.go:33-41 | a set of names has only one ascending order |
| Cookies.HeaderParses | cookie_context.go:18-53 | parsing the emitted header gives the configured cookies and then exactly the absent fixed ones in order |
| Cookies.HeaderIsNormalForm | cookie_context.go:18-53 | configuring the emitted header emits it unchanged |
| Cookies.HeaderIsEmptyIff | cookie_context.go:47-53 | nothing is emitted exactly for a configured text without cookies in a profile without fixed cookies |
| Cookies.ConfiguredValuesWin | cookie_context.go:18-43 | a fixed cookie never shadows a configured one |
| Cookies.PrintedParses | cookie_context.go:18-53 | printing clean cookies and parsing the text gives them back |
| Cookies.ParsedIsClean | sign/cookie_manager.go:105-124 | every parsed cookie is trimmed and free of the separators |

## Left out

- HTTP requests, gjson, gzip, protobuf and the WebSocket library: their outcomes are arbitrary inputs.
- The bytecode interpreter, browser probing and MD5 copy of `webmssdk.js`, and the a_bogus assembly of `sign/ab_sign.go`.
- Xxtea.DecryptInvertsEncrypt: does not cover one-word arrays, where a word's neighbours are the word itself and encryption is no bijection; the callers always add a length word, so they never encrypt one word.
- Packing.Pack: the limit that a JavaScript engine sets on the length of a string is not modelled.
- Sm3.Hasher.Write: chunks are value sequences, so aliasing between the chunk and the caller's slice is not captured; a length of 2^64 bits or more wraps as in the standard's 64-bit field.
- SignerSession.Signer.Sign: the native and the JavaScript signature themselves are opaque, and a failed build is a free choice.
- SignerSession.Signer.Prepare: the locks are steps of the state machine, not of the class; its argument `held` is the runtime stored in the signer.
- Listener.EachHandleInOnePlace: the handle of a connection stands for the close of the transport; close frames, deadlines and the 1.5-second wait for a heartbeat to end have no effect on it and are not steps.
- Listener.ReadErrorsFindZeroCounters: says nothing about how soon Start returns after a Close.
- Backoff.ReconnectPlan: failure counts below 1 do not occur and shift counts are taken as non-negative.
- MonitorInvariant.StepKeepsInv: generations are unbounded numbers; a 64-bit counter would have to wrap around for a difference. The idle check of a room may close it here also while tasks are active, so there are more runs than the code has; metadata, message delivery, `upstreamReady` and the disposal of instances are left out.
- Cookies.GetCookieParts: storing the anonymous cookies from a response is left out.
- MessageBus.Bus.Publish: a nil message returns at once and is not a call here; a panic in a handler is swallowed by the code, so a handler is only what it does to the list; ids come from a generator of unique ids.
- JsonScan.FindsEveryObject: the search for markers around the scan and gjson's reading of the result are not modelled.
- StatusProbe.Prober.FetchLiveStatusFromAPI: one probe at a time, as the context lock has it; the body that stands in for an empty response is taken as parsed, without the quoting of `%q`; request parameters, cache and log are left out.
- StatusProbe.Prober.RequestRoomEnter: whether the retry helper reports all errors or only the last is a free choice; delays between attempts are left out.
- Config loading, URL normalisers, HTTP routing, metrics and logging.
