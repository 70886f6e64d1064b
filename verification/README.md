# Verified model of the vehicle heater controller

A Dafny model of the controller's seven stateful components and proofs about every run of them: which START and SHUTDOWN
requests can reach the heater, what a power loss can do to the configuration store, how often a timer can start the
heater, and what the network manager, the real-time clock, the HTTP server and the temperature bus keep whatever their
ports answer. `dafny verify dfyconfig.toml` checks everything.

Each component has a specification on values (a state, and one function per operation with the branches and constants of
the source), theorems about all runs of that specification, and, where the source is an object, a class whose methods
change its fields step by step and are proved to make exactly the specified transitions. The theorems say both what may
never happen and, in the `*Actions` modules, what must: which call a step makes, and that a request whose ports agree is
carried out. Those tables are written over the state before the step and name no function of the specification that
decides. Texts, records, registers and check bytes are tied to what their standards or constants say, in
`JsonGrammar`, `RecordLayout`, `Ds3231Codec.RegisterLayout` and the known checksums. Ports, clocks, callbacks and
flash operations are adversaries: they answer from an arbitrary script, may fail at every call and, where the source
guards against it, may call back into the object.

| files | component |
|---|---|
| `Heater*`, `ApplicationState`, `Temperature*` | heater control authority and temperature manager |
| `Bytes`, `Utf8`, `Decimal`, `Crc32`, `Json*`, `SegmentedRecord`, `Record*`, `FlashFiles`, `ConfigStore` | A/B record store |
| `Scheduler*` | timer scheduler, its durable ledger over boots, and the gateway to the heater |
| `Ds3231*` | staged real-time clock write |
| `Network*` | access point supervision and station rotation |
| `Http*` | cooperative socket server |
| `DallasRom`, `Ds18b20*` | 1-Wire temperature sampling |

Some expected properties turned out to hold only under a condition. The code is modelled as it is, and the exact
condition is proved:

* A further START generation is authorised not only by a new start request or a fault retry but also by
  `update_active_session`, which makes a new revision. `HeaterGrants.EveryStartWasGranted` traces every START of every run
  to the one granted request, update or retry that made its revision; `HeaterGrants.RequestOutlivesOff` is the exact
  condition under which a standing request survives an OFF status; `HeaterRestart.ExtendedSessionRestarts` is a run with
  one request, no retry and two START generations.
* A session whose sensor failed is always stopped by the next cycle. The stop is latched, except exactly when that cycle
  also cancels an unconfirmed START at OFF and so ends the session (`HeaterSessions.LostSensorStopsSession`);
  `HeaterUnlatched.StopWithoutLatch` is a run into that case. The OFF status that discards an expired session may be older
  than the expiry.
* No timer occurrence is ever authorised twice. The minutes of authorised intents increase exactly if intents are applied
  in the order they were created within each boot (`SchedulerBoots.AtMostOnceAcrossBoots`);
  `SchedulerOrder.OlderIntentAppliedLast` is a run in which they do not.
* `next_occurrence` sees fifteen days. It predicts something exactly if a timer is due before that horizon; a consumed
  mark beyond it hides every occurrence, although one is due right after the mark (`SchedulerPrediction`).
* A manual stop begun with Requested OFF leaves an unassociated Requested ON exactly if the clock callback itself turns it
  ON and then fails without re-entering the gateway (`SchedulerGateway.ClockFailureLeavesOrphan`).
* An HTTP response that was delivered in full is counted as completed exactly if the server was not re-entered during the
  `send` that took its last bytes (`HttpRuns.DeliveryIsExact`); `HttpReentry.DeliveredButNotCounted` is a run in which it
  was.
* After a publish that failed between its rename and its last sync, the newest visible record is not yet safe: until the
  candidate of a retry is durable a power loss may still recover to the older durable record
  (`ConfigStore.AtomicStore.Commit`).
* A deferred AP check mark may outlive its reason, yet a due check never waits for more than one station action
  (`NetworkProperties.DueCheckWithinTwoSteps`).

## Model

| member | source | states |
|---|---|---|
| TemperatureModel.RefreshKeepsReading | app/temperature_manager.py:446-480 | refreshing role health changes only the failure generation of a reading and never lowers it |
| TemperatureProperties.AgingCounts | app/temperature_manager.py:446-469 | an elapsed failure deadline is counted in the generation unless the role was already remembered as FAILED |
| TemperatureProperties.SampleRestoresHealth | app/temperature_manager.py:300-340 | an accepted sample leaves its role healthy and stamps the reading |
| TemperatureProperties.GenerationNeverFalls | app/temperature_manager.py:289-340 | without reassignment a failure generation never goes down, over any operations |
| TemperatureProperties.FailedGapIsCounted | app/temperature_manager.py:300-340 | two consecutive valid samples of an assigned sensor at least failed_after_ms apart: its generation has grown, whatever happened in between |
| TemperatureProperties.RunKeepsCounted | app/temperature_manager.py:446-469 | a failure counted for an assigned sensor stays counted over every run in which no sample of it is accepted |
| TemperatureActions.SampleIsShown | app/temperature_manager.py:300-428 | a sample is accepted iff time has not gone back and it is a number in range; it is then what every look shows, with the exact health for its age, through any failures, scans and looks until the next accepted sample |
| TemperatureActions.SilenceIsShown | app/temperature_manager.py:364-428 | a sensor without any valid sample is missing, and failed from the failure deadline after its silence began, through any operations |
| TemperatureActions.SilenceBegins | app/temperature_manager.py:289-298 | silence begins with the first failed read or the first scan that does not find the sensor |
| TemperatureActions.BadReadingsAreCounted | app/temperature_manager.py:289-340 | over every run the counter of a sensor grows by exactly its failed reads and its samples out of range |
| TemperatureActions.ScanIsShown | app/temperature_manager.py:254-287 | a scan is accepted iff it fits, names nobody twice and is older than no sensor; a look then says who was found |
| TemperatureActions.ReassignmentIsShown | app/temperature_manager.py:208-252 | an assignment is accepted iff no sensor serves two roles; a role has a new revision iff its sensor changed, a sensor keeps its history iff it stays assigned |
| TemperatureSupervision.TemperatureManager.AgeRole | app/temperature_manager.py:446-469 | the object refreshes one role exactly as specified, counting its entry into FAILED |
| TemperatureSupervision.TemperatureManager.AgeRoles | app/temperature_manager.py:471-480 | the loop over roles ages them in order and stops at the first refused snapshot |
| TemperatureSupervision.TemperatureManager.TakeValid | app/temperature_manager.py:300-340 | a sample makes the specified transition, including the elapsed deadline that is counted first, the refused older time and the invalid value |
| TemperatureSupervision.TemperatureManager.TakeFailure | app/temperature_manager.py:342-362 | a failed read makes the specified transition |
| TemperatureSupervision.TemperatureManager.TakeDiscovery | app/temperature_manager.py:254-287 | a bus scan is stored atomically or refused as a whole |
| TemperatureSupervision.TemperatureManager.Reassign | app/temperature_manager.py:208-252 | assignments are replaced atomically; readings of sensors that leave are dropped |
| HeaterMonitor.CountersAreCounts | app/heater_controller.py:1780-1903 | the monitor's per-revision counters are the true numbers of calls in the history |
| HeaterMonitor.EveryEventWasPermitted | app/heater_controller.py:1820-1903 | an accepted history permitted each of its events after those before it |
| HeaterActions.CycleDecides | app/heater_controller.py:1905-1987 | with no attempt open, or an attempt that is over: the exact call and fault of every cycle from the state before it: the SHUTDOWN of a running heater that is not wanted, the START of a wanted one at OFF, each once per revision, the STARTING timeout, TEMP_MONITORING and repeated-generation faults, else the heartbeat |
| HeaterActions.CycleKeepsTrying | app/heater_controller.py:1780-1818 | with an attempt open: it is sent again exactly when it went unanswered, its request still stands, sends are left and it is due; after the last one the fault is raised; else the cycle waits |
| HeaterActions.NoCycleRaises | app/heater_controller.py:1996-2025 | no cycle of a safe controller raises |
| HeaterActions.StartIsGranted | app/heater_controller.py:909-992 | a start request is granted exactly when it is complete, in time, and nothing is left of an earlier one; any other leaves everything as it was |
| HeaterActions.UpdateTakesEffect | app/heater_controller.py:1003-1104 | a session update is accepted exactly for an adjustable session and a valid change; target, runtime and expiry of request and session move together, so that it can be updated again |
| HeaterActions.StopReachesHeater | app/heater_controller.py:994-1001 | a stop requested while the heater runs is sent as a SHUTDOWN of the new revision by a cycle on the next RUNNING status, whatever the sensor answers |
| HeaterActions.RequestReachesHeater | app/heater_controller.py:909-992 | a granted start request is sent as a START with its parameters by a cycle on an OFF status before its deadline with a trusted sensor |
| HeaterActions.RetryReachesHeater | app/heater_controller.py:1106-1139 | an authorised retry is sent as a START of the new revision by a cycle on an OFF status |
| HeaterActions.FaultOutlivesStatus | app/heater_controller.py:1313-1469 | a control fault outlives an accepted STATUS iff the status does not overtake it |
| HeaterActions.MalformedFramesBreakCommunication | app/heater_controller.py:1292-1298 | malformed frames in a row break the communication exactly when they reach the threshold |
| HeaterSafety.SendStartKeepsSafe | app/heater_controller.py:1820-1903 | a START sent on a fresh OFF status under a standing request and a live session meets every clause of the gate, whether or not the port call returns |
| HeaterSafety.SendShutdownKeepsSafe | app/heater_controller.py:1820-1903 | the same for a SHUTDOWN on a fresh RUNNING status with Requested OFF |
| HeaterSafety.PolicyKeepsSafe | app/heater_controller.py:751-882 | the sensor policy keeps the invariant in every branch |
| HeaterSafety.HandleFrameKeepsSafe | app/heater_controller.py:1510-1603 | every frame, consistent or not, solicited or not, keeps the invariant |
| HeaterSafety.StepKeepsSafe | app/heater_controller.py:1996-2025 | every cycle keeps the invariant whatever the sensor and the port answer |
| HeaterTheorems.EveryRunIsSafe | app/heater_controller.py:1996-2025 | every interleaving of all operations from construction on is safe |
| HeaterTheorems.AttemptsAreBoundedPerRevision | app/heater_controller.py:1780-1903 | at most max_control_attempts START and as many SHUTDOWN calls reach the port per request revision; none for a revision not yet reached |
| HeaterTheorems.EveryStartIsJustified | app/heater_controller.py:1905-1987 | every START is sent under a live deadline, on a solicited timely STATUS younger than one heartbeat that said OFF, with the newest revision ON and its own parameters |
| HeaterTheorems.EveryShutdownIsJustified | app/heater_controller.py:1905-1973 | every SHUTDOWN is sent with Requested OFF on such a STATUS saying RUNNING |
| HeaterTheorems.EveryStatusIsSolicited | app/heater_controller.py:1230-1244 | every accepted STATUS answers a STATUS call made since the previous one, within the response timeout |
| HeaterTheorems.NoRestartWithoutOffAndRequest | app/heater_controller.py:1354-1458 | between a SHUTDOWN and a later START an OFF status and then a newer request ON occurred |
| HeaterTheorems.StepMakesAtMostOneCall | app/heater_controller.py:1996-2025 | each cycle makes at most one port request and returns it |
| HeaterTheorems.OnlyCallersRevise | app/heater_controller.py:1003-1139 | no frame, cycle, stop or reported error makes a revision that is ON |
| HeaterGrants.EveryStartWasGranted | app/heater_controller.py:909-1139 | in every run the revision of each START was made by one granted start request, session update or fault retry |
| HeaterGrants.WithoutUpdatesOnlyRequestsAndRetries | app/heater_controller.py:1106-1139 | and without a granted session update only by a request or a retry |
| HeaterGrants.RequestOutlivesOff | app/heater_controller.py:1354-1414 | a standing request outlives an accepted OFF status iff no restart is blocked and the OFF is not taken for an unexpected stop |
| HeaterTheorems.EqualRevisionsEqualRequests | app/heater_controller.py:909-1104 | between two points of a run equal revisions mean equal requests, and revisions never go back |
| HeaterSessions.EverySessionIsBounded | app/heater_controller.py:1605-1676 | in every run expires_at = started_at + 60000 x runtime_minutes and runtime_minutes is at most the configured maximum |
| HeaterSessions.ExpiryWithdrawsRequest | app/heater_controller.py:1678-1696 | from the first cycle at or after the deadline Requested is OFF |
| HeaterSessions.NoStartUnderSession | app/heater_controller.py:940-969 | while a session or a sensor latch exists no new start request is granted |
| HeaterSessions.SessionsEndOnlyAtOff | app/heater_controller.py:1326-1352 | a session keeps its identity, stays expired with Requested OFF, and ends, like the latch, only where the last status said OFF |
| HeaterSessions.LostSensorStopsSession | app/heater_controller.py:780-866 | a session whose sensor is not the one it was bound to is stopped by the next cycle; the stop is latched, except exactly when the cycle cancels an unconfirmed START at OFF and ends the session |
| HeaterSessions.SnapshotsAreCanonical | app/heater_controller.py:515-679 | what the temperature manager reports of an assigned sensor passes the controller's validation |
| HeaterSessions.FailedGapStopsSession | app/heater_controller.py:823-866 | after a sample gap of failed_after_ms a session bound before it is stopped by the next cycle although the sensor looks healthy again, and latched up to the same exact exception |
| HeaterRestart.ExtendedSessionRestarts | app/heater_controller.py:1003-1104 | a concrete run: one start request, no retry, and two START generations |
| HeaterUnlatched.StopWithoutLatch | app/heater_controller.py:1780-1818 | a concrete run: a START sent, OFF heard, the confirmation timeout passed and the failure generation grown; the request is withdrawn and no latch is left |
| HeaterControl.HeaterController.StartRequest | app/heater_controller.py:909-992 | request_start makes the specified transition and keeps the object safe |
| HeaterControl.HeaterController.StopRequest | app/heater_controller.py:994-1001 | request_stop makes the specified transition and keeps the object safe |
| HeaterControl.HeaterController.UpdateSession | app/heater_controller.py:1003-1104 | update_active_session makes the specified transition, with each of its refusals |
| HeaterControl.HeaterController.RetryFault | app/heater_controller.py:1106-1139 | retry_control_fault makes the specified transition |
| HeaterControl.HeaterController.ReportCommunicationError | app/heater_controller.py:1153-1179 | a reported error makes the specified transition |
| HeaterControl.HeaterController.ProcessControlConfirmation | app/heater_controller.py:1354-1469 | confirmation, cancellation and completion of an attempt as specified |
| HeaterControl.HeaterController.TakeFrame | app/heater_controller.py:1510-1603 | handle_frame makes the specified transition |
| HeaterControl.HeaterController.ApplyPolicy | app/heater_controller.py:751-882 | the sensor policy makes the specified transition |
| HeaterControl.HeaterController.Transmit | app/heater_controller.py:1820-1903 | the port call of an attempt, with its failure, as specified |
| HeaterControl.HeaterController.Evaluate | app/heater_controller.py:1905-1987 | the object makes the specified control decision and its at most one call; which one is `HeaterActions.CycleDecides` |
| HeaterControl.HeaterController.Cycle | app/heater_controller.py:1996-2025 | one bounded cycle makes the specified transition, and so the calls of `HeaterActions`, and keeps the object safe |
| Utf8.DecodeEncode | adapters/config_file_store.py:372-383 | decoding the UTF-8 form (RFC 3629 section 3) of a text gives it back |
| Utf8.EncodeDecode | adapters/config_file_store.py:200-250 | only encodings of surrogate-free texts decode |
| Decimal.DigitsOfValue | adapters/config_file_store.py:252-267 | a digit string without a leading zero is the one its value prints |
| Crc32.Compute | adapters/config_file_store.py:349-360 | the byte and bit loops compute the CRC-32 of RFC 1952 section 8 |
| Crc32.ChecksumNoticesChange | adapters/config_file_store.py:349-360 | at any length, changing exactly one byte changes the checksum |
| Crc32.KnownChecksum | adapters/config_file_store.py:349-360 | the nine digits 123456789 have the check value CBF43926 (hexadecimal) |
| JsonText.SortAscends | adapters/config_file_store.py:518-566 | distinct keys are written in strictly ascending code point order |
| JsonText.CanonicalIsSame | adapters/config_file_store.py:518-566 | ordering the keys changes no value Python can tell apart |
| JsonParser.ParseInvertsPrint | adapters/config_file_store.py:169-329 | the parser accepts exactly the texts the writer prints, and returns the tree each one was printed from |
| JsonParser.WrittenTreeIsParsed | adapters/config_file_store.py:518-566 | whatever the writer accepts is parsed back to the same value with its keys in order |
| JsonParser.ParsedTextIsRewritten | adapters/config_file_store.py:269-329 | every accepted byte string is rewritten to itself |
| JsonGrammar.CanonicalTextDenotes | adapters/config_file_store.py:518-566 | the text the writer fills in denotes, by the grammar of RFC 8259 written from string literals, the value it was given with its keys in order |
| JsonGrammar.AcceptedDenotes | adapters/config_file_store.py:269-329 | whatever the parser accepts is a text of that grammar, and it returns the only value the text denotes |
| JsonGrammar.DenotesOneValue | adapters/config_file_store.py:169-329 | no text of the grammar denotes two values |
| JsonGrammar.OneSpellingIsAccepted | adapters/config_file_store.py:269-329 | a value that can be written is accepted in exactly one of the spellings that denote it |
| JsonGrammar.WrittenIsShortest | adapters/config_file_store.py:472-566 | no text that denotes a value is shorter than the one written of it |
| JsonGrammar.KnownEscapes | adapters/config_file_store.py:472-515 | the short escapes, the lower-case form of the other control characters, and everything else as it is |
| JsonGrammar.KnownText | adapters/config_file_store.py:518-566 | the literal bytes of one tree with every kind of value |
| JsonReader.CanonicalParser.Value | adapters/config_file_store.py:269-323 | the position-moving parser refines the specification on every input; `JsonGrammar.AcceptedDenotes` says what that accepts |
| JsonReader.CanonicalParser.Raw | adapters/config_file_store.py:200-250 | the string loop yields exactly the specified bytes or fails |
| JsonReader.CanonicalParser.Integer | adapters/config_file_store.py:252-267 | the number loop accepts exactly canonical integers |
| JsonWriter.StringSize | adapters/config_file_store.py:386-397 | the size of a quoted string, and success iff it fits the maximum |
| JsonWriter.ListSize | adapters/config_file_store.py:417-433 | the early list rejection loses nothing: success iff the true size fits |
| JsonWriter.DictSize | adapters/config_file_store.py:434-462 | the early dictionary rejection loses nothing: success iff the true size fits |
| JsonWriter.JsonSize | adapters/config_file_store.py:400-462 | the exact length of the canonical text, succeeding iff there is one and it fits |
| JsonWriter.WriteString | adapters/config_file_store.py:472-515 | fills exactly the bytes of the quoted text at the offset and leaves the rest |
| JsonWriter.WriteJson | adapters/config_file_store.py:518-566 | fills exactly the bytes of the canonical text at the offset and leaves the rest; `JsonGrammar.CanonicalTextDenotes` says what that text means |
| SegmentedRecords.SegmentedRecord.Put | adapters/config_file_store.py:62-67 | item assignment on chunks is item assignment on the flat record; bad indices are refused |
| SegmentedRecords.SegmentedRecord.Get | adapters/config_file_store.py:69-74 | item access on chunks is item access on the flat record |
| SegmentedRecords.SegmentedRecord.FindByte | adapters/config_file_store.py:102-108 | finds the first position in the flat record |
| SegmentedRecords.SegmentedRecord.SliceBytes | adapters/config_file_store.py:110-116 | gathers exactly the flat slice |
| RecordFormat.MetaIsExact | adapters/config_file_store.py:657-678 | a metadata line is accepted exactly when it is the printed form of valid metadata |
| RecordFormat.DecodeInvertsEncode | adapters/config_file_store.py:743-781 | decoding succeeds with a record on exactly one byte string, the one encoding it |
| RecordFormat.PrefixIsRejected | adapters/config_file_store.py:743-781 | no strict prefix of an accepted record is accepted |
| RecordFormat.ChangedByteIsRejected | adapters/config_file_store.py:743-781 | no change of exactly one byte of an accepted record is accepted, at any length and position |
| RecordFormat.TextHasNoNewline | adapters/config_file_store.py:472-515 | canonical text contains no newline, so the frame's newlines are found |
| RecordLayout.RecordIsLaidOut | adapters/config_file_store.py:618-646 | the record file spelled out: header magic, decimal generation and length, hexadecimal digest, text, and the trailer that repeats them |
| RecordCodec.PlanRecord | adapters/config_file_store.py:594-615 | the lengths of a record before it is written; refused iff it cannot be stored |
| RecordCodec.EncodeRecord | adapters/config_file_store.py:618-646 | the chunked buffer holds exactly the encoded record |
| RecordCodec.DecodeRecord | adapters/config_file_store.py:743-781 | the check-by-check decoder over chunks is the specified decoder |
| RecordSlots.EncodedRecordDecodes | adapters/config_file_store.py:618-646 | what was encoded decodes to the canonical payload under the same generation |
| RecordSlots.CommitAdvances | adapters/config_file_store.py:1293-1303 | a commit writes beside the newest record, and its record is newer |
| RecordSlots.ResealIsSafe | adapters/config_file_store.py:1438-1528 | at no stage of a reseal does the newest generation go down or the last valid record get lost, and no undecodable slot is left beside a new record |
| RecordSlots.ResealRecovers | adapters/config_file_store.py:1438-1528 | a completed reseal leaves two records of the payload, the second newest |
| FlashFiles.OpenOutcomes | adapters/config_file_store.py:1220-1270 | with one slot change unsynced, followed by any changes of the temporary file, a power loss leaves the slots before it or after it |
| ConfigStore.AtomicStore.ReadHeader | adapters/config_file_store.py:1072-1111 | the header generation is read from the first chunk only |
| ConfigStore.AtomicStore.ReadSlotReusingPayload | adapters/config_file_store.py:1113-1162 | the fast path returns exactly what decoding that slot would return |
| ConfigStore.AtomicStore.LoadRecords | adapters/config_file_store.py:1182-1198 | both slots, the second through the fast path, are what a full decode gives |
| ConfigStore.AtomicStore.BootstrapReceiptTarget | adapters/config_file_store.py:1305-1336 | when it answers, it names the slot the full scan would choose |
| ConfigStore.SignatureTellsApart | adapters/config_file_store.py:1200-1212 | a signature tells apart any two views whose slots decode differently |
| ConfigStore.AtomicStore.InspectRecovery | adapters/config_file_store.py:1214-1218 | the signature handed out lists slot, generation, fingerprint and text of every decodable slot and the name of every undecodable one |
| ConfigStore.NewestIsRecovered | adapters/config_file_store.py:1273-1291 | the generation a commit must expect, slot by slot |
| ConfigStore.AtomicStore.WriteAll | adapters/config_file_store.py:1233-1270 | short writes are continued until every byte is written, or it fails |
| ConfigStore.AtomicStore.Verify | adapters/config_file_store.py:996-1070 | succeeds only if the file holds exactly the buffer |
| ConfigStore.AtomicStore.PublishRecord | adapters/config_file_store.py:1338-1393 | over slots with at most one unsynced change: until the candidate is durable a power loss leaves the durable or the visible slots, then the visible ones or those with the record, and after success the latter; the flash stays orderly however it ends |
| ConfigStore.AtomicStore.Commit | adapters/config_file_store.py:1395-1436 | also after an earlier publish failed between rename and sync: a power loss recovers to the durable newest or visible newest record, from the candidate's sync on to the visible newest or the committed one, and to the committed one once it returned; each refusal is given exactly for its reason and changes nothing, and an I/O failure only after a filesystem call failed |
| ConfigStore.AtomicStore.Reseal | adapters/config_file_store.py:1438-1528 | nothing is written unless a signature that was given describes exactly the slots as they are; each refusal is given for its reason and changes nothing; until the first candidate is durable a power loss leaves the durable or the visible slots, then one of the stages of the reseal; success leaves both records, and it fails only after a filesystem call failed |
| SchedulerLedger.MarksOnlyRise | app/scheduler.py:1094-1100 | the consumed high-water mark never goes down |
| SchedulerLedger.EveryRunIsSound | app/scheduler.py:1102-1262 | the ledger invariant holds in every run of all operations |
| SchedulerLedger.ExportNeverFails | app/scheduler.py:714-785 | export never fails on a reachable scheduler and gives a valid history |
| SchedulerLedger.RestoreThenExportIsIdentity | app/scheduler.py:787-836 | restoring a valid history and exporting again is the identity |
| SchedulerBoots.AuthorizeEffect | app/scheduler.py:1322-1474 | a token is granted only for an intent still open in the ledger |
| SchedulerBoots.BootIsSafe | app/configuration_bootstrap.py:223-247 | the ledger filter and the restore of a boot keep what was granted before below the mark |
| SchedulerBoots.PowerLossIsSafe | app/scheduler_controller_gateway.py:221-261 | losing everything since the last durable ledger keeps it too, because a grant follows a confirmed checkpoint |
| SchedulerBoots.AtMostOnceAcrossBoots | app/scheduler.py:1034-1100 | over all boots, power losses, clock readings and timer replacements no occurrence is authorised twice, and the authorised minutes strictly increase iff intents are applied in order within each boot |
| SchedulerOrder.OlderIntentAppliedLast | app/scheduler_controller_gateway.py:432-457 | a concrete run in which an older intent is applied last and the minutes do not increase |
| SchedulerActions.OfferedIffAlone | app/scheduler.py:1186-1262 | a step returns an intent iff exactly one timer is due at a newly entered undisturbed minute, control is available and no occurrence is active; it carries that timer's key, parameters and deadline |
| SchedulerActions.LoneTimerIsOffered | app/scheduler.py:1223-1262 | the ledger record and state that go with the offer, or the occurrence suppressed as busy |
| SchedulerActions.ConflictStartsNobody | app/scheduler.py:1219-1222 | if two or more are due, each of them is recorded as a conflict at that minute and none is offered |
| SchedulerActions.QuietStep | app/scheduler.py:1102-1211 | no other step consumes or offers anything |
| SchedulerActions.ArmedSchedulerEnters | app/scheduler.py:680-868 | new timers get a new revision, the ledger keeps the records of those that stay, and an armed scheduler enters the minute after its first reading |
| SchedulerActions.ReplacementWaitsOneStep | app/scheduler.py:680-712 | timers replaced while armed are not looked at before a step has taken a new reading |
| SchedulerActions.OpenIntentIsAuthorized | app/scheduler.py:1322-1474 | an open intent becomes one new token exactly in its window, while it is genuine and wanted and the clock went on; else it expires, is rejected, or fences |
| SchedulerActions.ClosedIntentIsIgnored | app/scheduler.py:1322-1474 | an intent that is not open, or comes too early, changes nothing |
| SchedulerActions.HandedTokenIsSettled | app/scheduler.py:1516-1608 | the occurrence becomes active exactly if the resulting request is its start and none is active; an unaccounted request is a fault |
| SchedulerActions.DueTimerRunsItsCourse | app/scheduler.py:1102-1700 | from the due minute to the end: offered, authorised in its window, active after the request, and completed in the ledger |
| SchedulerFences.FencesAdvanceEpoch | app/scheduler.py:588-608 | disarm, arm, armed replacement, fault, reset and clock fences each start a new authorization epoch |
| SchedulerFences.AuthorizedMeansUnfenced | app/scheduler.py:1322-1474 | a token is granted only within the intent's window and only if no fence happened since its creation |
| SchedulerFences.TokenCompletesOnce | app/scheduler.py:1516-1608 | a token is completed at most once, whatever happens in between |
| SchedulerFences.ActiveOccurrenceStays | app/scheduler.py:1516-1700 | while an occurrence is active no operation puts another in its place |
| SchedulerPrediction.NextOccurrence | app/scheduler.py:1702-1799 | the nested search loops compute the specified prediction |
| SchedulerPrediction.PredictionIsExact | app/scheduler.py:1702-1799 | the prediction is the first future minute at which a timer is due, and exists iff one is due before the horizon |
| SchedulerPrediction.PredictedMinuteFires | app/scheduler.py:1186-1211 | stepped every minute under an undisturbed clock the scheduler consumes nothing before the predicted minute and something at it |
| SchedulerPrediction.MarkBeyondHorizonHidesAll | app/scheduler.py:1702-1799 | a mark beyond the searched days hides every occurrence |
| SchedulerPrediction.HiddenOccurrenceIsDue | app/scheduler.py:1022-1032 | although a daily timer falls due right after that mark |
| SchedulerObject.Scheduler.ConsumeAll | app/scheduler.py:1034-1100 | the loop enters exactly one record for every due timer and raises the mark |
| SchedulerObject.Scheduler.Evaluate | app/scheduler.py:1102-1262 | the object makes the specified step; what it consumes and offers is `SchedulerActions` |
| SchedulerObject.Scheduler.Replace | app/scheduler.py:680-712 | timer replacement makes the specified transition, with its refusals |
| SchedulerObject.Scheduler.AuthorizeIntent | app/scheduler.py:1322-1474 | authorization makes the specified transition |
| SchedulerObject.Scheduler.CompleteIntent | app/scheduler.py:1516-1608 | completion updates the handed-off record in place, seen by the ledger only while it still refers to it |
| SchedulerObject.Scheduler.MarkManualOverride | app/scheduler.py:1610-1651 | a manual override releases the active occurrence as specified |
| SchedulerObject.Scheduler.MarkActiveComplete | app/scheduler.py:1653-1700 | completion of the active occurrence as specified |
| SchedulerObject.Scheduler.ExportHistory | app/scheduler.py:714-785 | a sound scheduler always exports its ledger |
| SchedulerObject.Scheduler.RestoreHistory | app/scheduler.py:787-836 | a history is restored whole or refused |
| SchedulerGateway.Gateway.Checkpoint | app/scheduler_controller_gateway.py:221-261 | success means that persistence has, under the expected generation, read back exactly the ledger the scheduler exports then |
| SchedulerGateway.Gateway.CheckpointOrFault | app/scheduler_controller_gateway.py:263-286 | the same, and Requested OFF stays OFF through every storage callback |
| SchedulerGateway.Gateway.ApplyIntentCore | app/scheduler_controller_gateway.py:432-457 | no authorization is asked for unless right before it a ledger was written and read back unchanged; ports that agree are called in exactly the order confirm, read back, authorise, request, complete; otherwise the last call explains the end |
| SchedulerGateway.Gateway.ApplyIntent | app/scheduler_controller_gateway.py:392-579 | begun with Requested OFF, however it ends, Requested is ON afterwards only as a timer's request with an active occurrence; on an idle gateway whose ports agree it returns success by exactly those calls; at most one start is requested |
| SchedulerGateway.Gateway.Step | app/scheduler_controller_gateway.py:581-644 | the same for a whole step: an issued intent is handed off by exactly those calls, after the looking back and the checkpoint |
| SchedulerGateway.Gateway.Hand | app/scheduler_controller_gateway.py:432-579 | the hand-off under a confirmed ledger: clock, availability, authorization, request, comparison and completion, each end tied to the answer that caused it |
| SchedulerGateway.Gateway.FinishOperation | app/scheduler_controller_gateway.py:189-209 | after a re-entered operation nothing it left in Requested State is trusted |
| SchedulerGateway.Gateway.RequestManualStop | app/scheduler_controller_gateway.py:646-733 | after a sampled tick Requested is OFF, and a running timer occurrence is booked as overridden or remembered for it; otherwise Requested is exactly what the clock callback left; inside another operation it is refused with an error |
| SchedulerGateway.ClockFailureLeavesOrphan | app/scheduler_controller_gateway.py:657-733 | the concrete failure: a clock callback turns Requested ON and raises |
| SchedulerGateway.AgreedIntentIsApplied | app/scheduler_controller_gateway.py:392-579 | a concrete gateway whose ports agree ends with Requested ON |
| SchedulerGateway.AgreeableIsObliging | app/scheduler_controller_gateway.py:392-579 | there are ports that agree with everything |
| Ds3231Codec.CountDays | adapters/ds3231_adapter.py:65-75 | the year and month loops compute the number of days since 2000 |
| Ds3231Codec.SecondsIncrease | adapters/ds3231_adapter.py:83-89 | later moments have strictly more seconds |
| Ds3231Codec.SecondsAreInjective | adapters/ds3231_adapter.py:83-89 | no two valid moments share their seconds |
| Ds3231Codec.SecondsCountTicks | adapters/ds3231_adapter.py:65-89 | every tick of the civil calendar adds one second |
| Ds3231Codec.SecondsBegin | adapters/ds3231_adapter.py:65-89 | the count begins at 2000-01-01 00:00:00 |
| Ds3231Codec.WeekdaysFollow | adapters/ds3231_adapter.py:78-80 | weekdays follow each other from Saturday, 1 January 2000 |
| Ds3231Codec.RegisterLayout | adapters/ds3231_adapter.py:96-105 | which register holds what, in two decimal digits |
| Ds3231Codec.DecodeEncode | adapters/ds3231_adapter.py:96-116 | what is written for a valid moment reads back as that moment |
| Ds3231Codec.HourForms | adapters/ds3231_adapter.py:215-232 | an hour register is read as an hour iff it holds it in twenty-four-hour BCD or in the twelve-hour form with its afternoon mark |
| Ds3231.MatchingControlsLockAlike | adapters/ds3231_adapter.py:119-126 | control bytes that match agree on the oscillator lock |
| Ds3231.Adapter.ReadUtc | adapters/ds3231_adapter.py:262-272 | a fresh read raises or returns a moment on one of the time lines the registers are guarded by; on a chip that stands still it returns what is shown, and raises exactly if nothing is |
| Ds3231.Adapter.Stage | adapters/ds3231_adapter.py:274-354 | interrupted after any byte, or done, the registers show the time line they showed before or nothing; on a chip that stands still every valid moment is staged |
| Ds3231.Adapter.Commit | adapters/ds3231_adapter.py:356-453 | interrupted at any point, or done, the registers show an earlier line, the staged line or nothing; once done the staged line; on a chip that stands still it succeeds |
| Ds3231.Adapter.WriteUtc | adapters/ds3231_adapter.py:455-468 | on a chip that stands still exactly the valid moments are taken, unless a reserved status bit is set, and a read then shows them |
| NetworkProperties.StepIsOneOf | app/network_manager.py:529-848 | a step is exactly one of: nothing, a latched fault, the hostname, AP, check or station action of its phase |
| NetworkActions.StepMakesNextCall | app/network_manager.py:538-848 | whatever the port answers, a step makes exactly the call its phase, deadlines and deferral say |
| NetworkActions.StartedManagerComesUp | app/network_manager.py:374-665 | a started manager sets its name and its access point up and then turns to the station if it knows a network |
| NetworkActions.TrackedStationIsPolled | app/network_manager.py:766-820 | what a poll makes of each well-formed report: online, still joining, timed out or failed |
| NetworkActions.LeavingMovesOn | app/network_manager.py:506-527 | a disconnect moves on to the next profile after the gap, or after the round to the first one with the backoff |
| NetworkActions.StationComesOnline | app/network_manager.py:666-848 | a station whose port agrees is online after prepare, connect and poll |
| NetworkActions.SilentProfileGivesWay | app/network_manager.py:506-527 | a profile silent for the connection timeout gives way to the next one |
| NetworkActions.LostApIsRepaired | app/network_manager.py:577-665 | an access point found down is started again at the next step, and the station goes on as it was |
| NetworkProperties.StepKeepsSound | app/network_manager.py:529-848 | phases, resume fields, deadlines and link truth stay consistent whatever the port answers |
| NetworkProperties.DueCheckWithinTwoSteps | app/network_manager.py:538-554 | a due AP check in a station phase is made by this step or the next |
| NetworkProperties.SupervisionIsPeriodic | app/network_manager.py:602-631 | the access point is looked at once an interval, at most one step late |
| NetworkProperties.PassedOverAtMostOnce | app/network_manager.py:636-665 | after one successful check the next step is the due station action, even if a check is due again |
| NetworkProperties.OutageBegins | app/network_manager.py:477-504 | a failing check remembers phase, deadline and state of the station it interrupts |
| NetworkProperties.OutageCostsNothing | app/network_manager.py:577-612 | an AP outage of any length restores the station phase, deadline and state it interrupted |
| NetworkRuns.LinksAreAsLastSeen | app/network_manager.py:396-475 | in every run a link is claimed exactly as the last call about it reported, never after a failed or malformed one |
| NetworkRuns.TurnsFollowDisconnects | app/network_manager.py:506-527 | through faults and resets the next profile is given by the number of disconnects |
| NetworkRuns.KthAttemptIsKthProfile | app/network_manager.py:506-527 | while no fault is reset the k-th attempt uses the k-th profile, round and round |
| NetworkRuns.RoundDelayIsCapped | app/network_manager.py:516-523 | the round delay grows from round to round and stays within its bounds |
| NetworkRuns.LeavingStartsTheWait | app/network_manager.py:506-527 | a disconnect starts the gap or, after a round, the backoff |
| NetworkRuns.WaitIsKept | app/network_manager.py:538-554 | no step before that deadline touches the station, also through an AP outage |
| NetworkSupervision.NetworkManager.RepairAp | app/network_manager.py:577-631 | the AP phase makes the specified transition with one port call |
| NetworkSupervision.NetworkManager.CheckAp | app/network_manager.py:636-665 | the AP check makes the specified transition with one port call |
| NetworkSupervision.NetworkManager.NextProfile | app/network_manager.py:506-527 | rotation and backoff as specified |
| NetworkSupervision.NetworkManager.RoundBackoff | app/network_manager.py:516-523 | the shift is the doubled delay, capped |
| NetworkSupervision.NetworkManager.Step | app/network_manager.py:850-889 | a step makes the specified transition and adds at most one port call |
| NetworkSupervision.NetworkManager.Start | app/network_manager.py:374-394 | start makes the specified transition |
| NetworkSupervision.NetworkManager.ResetFault | app/network_manager.py:891-908 | reset_fault makes the specified transition |
| NetworkSupervision.NetworkManager.ReplaceProfiles | app/network_manager.py:910-926 | profiles are replaced only while stopped |
| NetworkSupervision.NetworkManager.Deinit | app/network_manager.py:928-973 | closing makes one deinit call and ends with no link claimed, whatever the port answers |
| HttpOwnership.CloseClientShrinks | adapters/micropython_http_server.py:533-571 | closing a client, with any failure and re-entry, never loses an open socket |
| HttpOwnership.CloseCleanupShrinks | adapters/micropython_http_server.py:573-601 | the same for a rejected socket |
| HttpOwnership.DeinitShrinks | adapters/micropython_http_server.py:1307-1362 | deinit, also called from inside a step, keeps ownership and only empties slots |
| HttpDelivery.AcceptKeeps | adapters/micropython_http_server.py:731-822 | accepting, with every rejection and re-entry, gives the socket exactly one owner |
| HttpDelivery.RejectHandledKeeps | adapters/micropython_http_server.py:603-632 | a rejected socket is closed or retained, also if closing raises |
| HttpDelivery.RecvKeeps | adapters/micropython_http_server.py:1018-1090 | receiving and routing keep ownership and accounts |
| HttpSending.SendKeeps | adapters/micropython_http_server.py:1092-1146 | sending keeps the delivered bytes equal to the response before the offset |
| HttpRuns.StepActsOnce | adapters/micropython_http_server.py:1221-1305 | each step makes at most one accept, recv or send and leaves everything in order |
| HttpRuns.OpenSocketsAreOwned | adapters/micropython_http_server.py:533-632 | in every run each accepted unclosed socket is in exactly one slot and at most two are open |
| HttpRuns.DeliveryIsExact | adapters/micropython_http_server.py:1092-1146 | delivered bytes are a prefix of the response owed, all of it if counted; a response delivered in full is counted iff its last send was not re-entered |
| HttpReentry.DeliveredButNotCounted | adapters/micropython_http_server.py:1092-1146 | a concrete run: a send takes the last bytes and calls step, and the completed counter stays 0 |
| HttpRuns.PromisesStand | adapters/micropython_http_server.py:842-852 | a response once owed never changes, and what was delivered stays delivered |
| HttpRuns.OffsetIsDelivered | adapters/micropython_http_server.py:1092-1146 | a writing client has been given exactly response[:write_offset] |
| HttpRuns.TurnComesCloser | adapters/micropython_http_server.py:1244-1268 | an actor with work is served, or its turn comes closer, or the client served instead is being written to and progressed |
| HttpActions.ConnectionIsAccepted | adapters/micropython_http_server.py:731-822 | a new connection takes the first free slot with its first deadline |
| HttpActions.OversizedIsRefused | adapters/micropython_http_server.py:1018-1090 | a request beyond the limit is answered 413 or 431 |
| HttpActions.IncompleteWaits | adapters/micropython_http_server.py:921-1016 | a request that is not complete keeps the client reading with the deadline of the part it still owes |
| HttpActions.MalformedIsAnswered | adapters/micropython_http_server.py:858-871 | a malformed request is answered with the status the parser found |
| HttpActions.CompleteIsRouted | adapters/micropython_http_server.py:921-1016 | a complete request is owed exactly the response of the application |
| HttpActions.HeadersEndSomewhere | adapters/micropython_http_server.py:921-960 | the headers end iff an empty line stands somewhere |
| HttpActions.PartIsSent | adapters/micropython_http_server.py:1092-1146 | bytes the socket takes are delivered in order and the client keeps its turn |
| HttpActions.LastPartFinishes | adapters/micropython_http_server.py:1092-1146 | with the last byte the response is counted and the connection closed |
| HttpActions.LateReaderIsAnswered | adapters/micropython_http_server.py:1148-1178 | a client late with its request is owed 408 after the step, whatever else happens in it |
| HttpActions.LateWriterIsClosed | adapters/micropython_http_server.py:1148-1178 | a client late in reading its response is closed |
| HttpActions.DeinitClosesEverything | adapters/micropython_http_server.py:1307-1362 | when every close works, deinit leaves no socket open and no slot occupied |
| HttpSockets.HttpServer.CloseClient | adapters/micropython_http_server.py:533-571 | the object closes a client as specified, with re-entry during close() |
| HttpSockets.HttpServer.Reject | adapters/micropython_http_server.py:603-632 | rejection as specified |
| HttpSockets.HttpServer.AcceptOne | adapters/micropython_http_server.py:731-822 | accepting as specified |
| HttpSockets.HttpServer.FindFreeSlot | adapters/micropython_http_server.py:722-729 | the loop finds the first slot without client and retained socket, if any |
| HttpSockets.HttpServer.ParseAndRoute | adapters/micropython_http_server.py:921-1016 | parsing and routing as specified |
| HttpSockets.HttpServer.RecvOne | adapters/micropython_http_server.py:1018-1090 | receiving as specified |
| HttpSockets.HttpServer.SendOne | adapters/micropython_http_server.py:1092-1146 | sending as specified |
| HttpSockets.HttpServer.Expire | adapters/micropython_http_server.py:1148-1178 | timeouts and retained closes as specified |
| HttpSockets.HttpServer.ServeNext | adapters/micropython_http_server.py:1244-1268 | the loop serves the first eligible actor from the turn on |
| HttpSockets.HttpServer.Step | adapters/micropython_http_server.py:1221-1305 | a step makes the specified transition, at most one socket operation |
| HttpSockets.HttpServer.Deinit | adapters/micropython_http_server.py:1307-1362 | deinit makes the specified transition |
| DallasRom.Compute | adapters/ds18b20_adapter.py:78-92 | the bit loop, which shifts register and byte side by side, computes the Dallas CRC-8 |
| DallasRom.CheckByteCloses | adapters/ds18b20_adapter.py:78-92 | a byte appended to any data brings the check to zero iff it is the data's CRC |
| DallasRom.ChangedRomIsInvalid | adapters/ds18b20_adapter.py:95-111 | no valid ROM code becomes another by changing one byte |
| DallasRom.KnownCrc8 | adapters/ds18b20_adapter.py:78-92 | the nine digits 123456789 have the check value A1 (hexadecimal) |
| DallasRom.RomIdIsInjective | adapters/ds18b20_adapter.py:95-111 | different codes have different ids |
| DallasRom.ScanIsAcceptedIff | adapters/ds18b20_adapter.py:339-354 | a scan of any length is accepted iff every code is valid and no two are equal |
| DallasRom.AcceptedScan | adapters/ds18b20_adapter.py:339-354 | an accepted scan is the scanned codes and no others, each once, in strict order of their ids |
| DallasRom.ValidateScan | adapters/ds18b20_adapter.py:339-354 | the loop over codes and seen ids computes that result within the sensor limit |
| Ds18b20Trust.StepKeeps | adapters/ds18b20_adapter.py:595-662 | a step keeps the trust invariant with at most one bus operation |
| Ds18b20Trust.TrustIsEarned | adapters/ds18b20_adapter.py:274-315 | in every run a sensor is trusted iff it has shown another valid value since its last trust loss, and the device flags say the same |
| Ds18b20Trust.ValidIsRead | adapters/ds18b20_adapter.py:501-566 | a recorded valid value was just read, is in range, stamped with the end of its conversion, and if 85.0 was earned |
| Ds18b20Trust.ReadingIsJudged | adapters/ds18b20_adapter.py:501-566 | every valid reading is recorded as valid, except exactly an 85.0 that is not earned |
| Ds18b20Trust.ReadAfterConversion | adapters/ds18b20_adapter.py:617-629 | a sensor is read only once the conversion wait has passed |
| Ds18b20Actions.StepMakesNextOperation | adapters/ds18b20_adapter.py:595-662 | whatever bus and manager answer, a step makes exactly the bus operation its mode, deadlines and requests say, or none |
| Ds18b20Actions.SensorIsRead | adapters/ds18b20_adapter.py:501-566 | what each answer makes of a sensor: the value believed, or the failure told, counted and shown |
| Ds18b20Actions.CycleReadsEverySensor | adapters/ds18b20_adapter.py:437-566 | a conversion that is due and ticks after its wait read every sensor once, in order, telling the manager of each |
| Ds18b20Actions.ScanIsAdopted | adapters/ds18b20_adapter.py:366-435 | an accepted scan makes its sensors the known ones, keeps what is known of those that stay, and a conversion comes next |
| Ds18b20Actions.FailedScanIsTold | adapters/ds18b20_adapter.py:366-435 | a failed scan costs all trust, every assigned sensor is told of, and it is repeated an interval later |
| Ds18b20Actions.FailedConversionIsTold | adapters/ds18b20_adapter.py:437-477 | the same for a refused conversion |
| Ds18b20Actions.RaisingLatches | adapters/ds18b20_adapter.py:292-308 | an exception of the bus stops the machine without any trust |
| Ds18b20Actions.ResetScansAgain | adapters/ds18b20_adapter.py:577-593 | and nothing happens until a reset, after which a scan comes first |
| Ds18b20Sampling.DS18B20Adapter.PerformDiscovery | adapters/ds18b20_adapter.py:366-435 | discovery makes the specified transition |
| Ds18b20Sampling.DS18B20Adapter.TellGlobalFailure | adapters/ds18b20_adapter.py:335-337 | the loop reports the failure of every assigned sensor until the manager raises |
| Ds18b20Sampling.DS18B20Adapter.StartConversion | adapters/ds18b20_adapter.py:437-477 | starting a conversion makes the specified transition |
| Ds18b20Sampling.DS18B20Adapter.ReadNext | adapters/ds18b20_adapter.py:479-566 | reading one sensor and finishing the cycle as specified |
| Ds18b20Sampling.DS18B20Adapter.Step | adapters/ds18b20_adapter.py:595-662 | a step makes the specified transition with at most one bus operation |
| Ds18b20Sampling.DS18B20Adapter.ResetFault | adapters/ds18b20_adapter.py:577-593 | an explicit reset forgets all trust and asks for a discovery |

## Left out

- Alerts, events, counters without a property, `last_error` strings, `status()` and snapshot dictionaries.
- Ticks are unbounded integers: the wrap-around of `ticks_diff` and failures of injected tick helpers are not modelled.
- Allocation failures are modelled only in the HTTP server, where they change who owns a socket.
- Python type checks of arguments; values of a wrong type appear as the malformed or unexpected answers they lead to.
- Heater: `services/*` is not part of this model; frames carry their raw fields, and a cycle's port call succeeds or fails by a parameter. The requested, actual and session objects are values of the controller. ROM string normalisation is left out.
- `request_requested_at_ms` and the branch that cancels a restart request: a blocked restart implies Requested OFF, so that branch cannot be reached.
- Store: a file read returns the file's bytes or fails; a read reported as short by the driver is not modelled separately. The bytes form `_decode_record` with `json.loads` and `_CanonicalComparison` are left out, the SHA-256 token is represented by the text it digests, and the reference record of the provisioning receipt is kept as a value.
- Scheduler: time zone rules and clock canonicalisation are not part of this model; a step gets a clock reading as a parameter, and the prediction theorems are for a fixed offset. Occurrence keys are pairs of timer and minute, the persistent list is a map, and the shape checks of timer definitions are left out.
- SchedulerPrediction.NextOccurrence: the local spring gap, the repeated autumn minute and the transition fence of the search are not in it, because the offset is fixed.
- Scheduler: the configuration manager's ledger is one durable cell that refuses a lower high-water mark.
- Gateway: `reset_fault` and the status snapshot; a ledger is compared as a value.
- DS3231: the status dictionary.
- Network: re-entrant driver calls, the raw status number, the hostname as configuration, and the outer handler for an unclassified port error, which no modelled call can reach.
- HTTP: `start` opens the listener in one move that may fail and leave the listener open; the request parser, the response encoders and the application are parameters; peer addresses and ingress labels are left out.
- HTTP: client records are values in their slots; a client is told from another by its socket.
- DS18B20: temperatures are real numbers; the cycle error flag only chooses the last error text and is left out.
- REST routing, web assets, captive DNS, composition, drivers and `main` only wire these components together.
