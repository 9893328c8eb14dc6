# A verified model of six pieces of the Android platform

The main part is the AIDL USB port HAL client (`UsbPortAidl`) of the USB system service. The model covers:

- **Status translation.** The wire bytes the HAL reports become the `UsbPortStatus` bit constants. Each mode or status translates one at a time, and the supported-mode sets are the OR of those translations.
- **The proxy connection.** `mProxy` is either null or a Binder proxy, and `mTransactionId` counts the status queries the client started. `connectToProxy`, `serviceDied` and `getUsbHalVersion` are modelled, as is the null-proxy guard in front of every command.
- **The data-enable registry.** `sCallbacks` maps a 64-bit key to the caller's `IUsbOperationInternal` receiver. `enableUsbData` picks an unused key, registers the receiver and dispatches to the HAL, and it undoes the registration when dispatch fails. `notifyEnableUsbDataStatus` later reports the HAL's verdict to that receiver.
- **The port status gate.** `notifyPortStatusChange` forwards one translated batch to the port manager. It does so only after `systemReady` and when the HAL reports success.

Five smaller pieces sit beside it:

- `parse_args` of the `bit` build/install/test tool. This covers the special forms, the phase flags, splitting a pattern into a module name and test actions, and the error exits. The same file contributes the `TestResults` instrumentation counters, the colours of the `print_results` summary line and the gtest filter built for a native test.
- The `Parcel` layout of `TransitionRequestInfo`: a presence-flag byte, the transition type, then the optional trigger task and remote transition.
- The sections and pre-group filters of the SystemUI `RankingCoordinator`.
- The factories and the identity-based `equals` of the time zone provider's `TimeZoneProviderRequest`.
- The per-user secret lists of the lock-settings test double `FakeStorageManager`.

Each source file has its own module:

| module | file |
|---|---|
| `UsbStatusTranslation` | `usb_status_translation.dfy` |
| `UsbPortAidl` | `usb_port_aidl.dfy` |
| `BitCommandLine` | `bit_command_line.dfy` |
| `BitTestResults` | `bit_test_results.dfy` |
| `TransitionRequestInfoParcel` | `transition_request_info.dfy` |
| `RankingCoordinator` | `ranking_coordinator.dfy` |
| `TimeZoneProviderRequests` | `time_zone_provider_request.dfy` |
| `FakeStorage` | `fake_storage_manager.dfy` |

`JavaTypes` (`java_types.dfy`) holds `Option` and the Java integer widths.

Objects that the source updates in place are classes with those fields:

- the client and its registry;
- the HAL proxy, which records the calls it receives;
- the operation receivers, which record the result codes delivered to them;
- the port manager, which records its batches;
- `bit`'s `Target`, `Options`, `TestAction` and `TestResults`;
- the `Parcel`;
- `FakeStorageManager`.

The source's loops are methods with loops proved against specification functions:

- the two accumulator loops of the translator;
- the batch translation;
- the key search;
- the argument, option-letter and comma-splitting loops of `parse_args`;
- the filter builder.

Environment effects are parameters:

- Whether a Binder call throws `RemoteException` is a boolean parameter, and so is whether a receiver's `onOperationComplete` throws one.
- The values `ThreadLocalRandom.nextInt()` would return are a sequence parameter `draws`.
- What `ServiceManager.waitForService` finds is a `ServiceLookup` parameter.
- The dozing state and the high-priority provider are parameters.

Uncaught Java exceptions (`NullPointerException`, JUnit's `AssertionFailedError`) and `bit`'s `exit(1)` are error results.

The constants of the AIDL enums (`PortMode`, `ContaminantProtectionStatus`, `Status`) and of `UsbPortStatus`, `UsbOperationInternal` and `UsbManager` are defined in files that are not part of this model. They carry their published Android values.

## Model

| member | source | states |
|---|---|---|
| UsbStatusTranslation.ToPortMode | services/usb/java/com/android/server/usb/hal/port/UsbPortAidl.java:299-318 | Always returns one of the six `UsbPortStatus` mode constants. Every byte outside the six known `PortMode` values gives `MODE_NONE`, and `MODE_NONE` comes only from them or from `PortMode.NONE`. |
| UsbStatusTranslation.PortModeRoundTrip | services/usb/java/com/android/server/usb/hal/port/UsbPortAidl.java:299-318 | A byte is a known `PortMode` iff mapping its translation back gives the byte again, so the six known modes map to six distinct constants. |
| UsbStatusTranslation.ToContaminantProtectionStatus | services/usb/java/com/android/server/usb/hal/port/UsbPortAidl.java:335-353 | Always returns one of the five contaminant-protection constants. Every unknown byte gives `CONTAMINANT_PROTECTION_NONE`, and `NONE` comes only from unknown bytes or `ContaminantProtectionStatus.NONE`. |
| UsbStatusTranslation.ContaminantProtectionRoundTrip | services/usb/java/com/android/server/usb/hal/port/UsbPortAidl.java:335-353 | A byte is a known status iff mapping its translation back gives the byte again. |
| UsbStatusTranslation.ToSupportedModes | services/usb/java/com/android/server/usb/hal/port/UsbPortAidl.java:320-328 | The loop's result is the OR of the element translations, starting from `MODE_NONE`. An empty array gives `MODE_NONE`. |
| UsbStatusTranslation.ToSupportedContaminantProtectionModes | services/usb/java/com/android/server/usb/hal/port/UsbPortAidl.java:355-363 | The loop's result is the OR of the element translations, starting from `CONTAMINANT_PROTECTION_NONE`. An empty array gives `NONE`. |
| UsbStatusTranslation.OrFoldAppend | services/usb/java/com/android/server/usb/hal/port/UsbPortAidl.java:320-328 | The supported set of a concatenation is the OR of the two parts' sets. |
| UsbStatusTranslation.OrFoldCovers | services/usb/java/com/android/server/usb/hal/port/UsbPortAidl.java:320-328 | The supported set contains the bits of every element's translation. |
| UsbStatusTranslation.OrFoldLeast | services/usb/java/com/android/server/usb/hal/port/UsbPortAidl.java:320-328 | Any bit set that contains every element's translation contains the supported set. |
| UsbStatusTranslation.OrFoldPermutation | services/usb/java/com/android/server/usb/hal/port/UsbPortAidl.java:355-363 | The supported set does not depend on the order or grouping of the array elements. |
| UsbStatusTranslation.UfpAndDfpIsDual | services/usb/java/com/android/server/usb/hal/port/UsbPortAidl.java:302-306 | Any wire array that lists both UFP and DFP supports `MODE_DUAL`, whatever else it lists and in any order. When it lists nothing beyond UFP, DFP and DRP, its mode set is exactly `MODE_DUAL`, the same as DRP alone. |
| UsbPortAidl.TranslatePorts | services/usb/java/com/android/server/usb/hal/port/UsbPortAidl.java:374-400 | One `RawPortInfo` per input status, in input order, each the translation of its status. The port name becomes the port id. |
| UsbPortAidl.ChooseKey | services/usb/java/com/android/server/usb/hal/port/UsbPortAidl.java:245-257 | The key is absent from `sCallbacks`. It is `operationID` when that is free, and otherwise the first unused random draw. |
| UsbPortAidl.DispatchKeyUnique | services/usb/java/com/android/server/usb/hal/port/UsbPortAidl.java:245-257 | The key search's rule fixes a single key for a given registry, `operationID` and draw sequence. |
| UsbPortAidl.PortManager.UpdatePorts | services/usb/java/com/android/server/usb/hal/port/UsbPortAidl.java:401 | The port manager receives exactly one more batch, the one passed. |
| UsbPortAidl.UsbPortAidlClient.constructor | services/usb/java/com/android/server/usb/hal/port/UsbPortAidl.java:130-135 | The client starts not system-ready, with an empty registry and counter 0, and connects immediately: with no service the proxy stays null; with one found, link, callback and one status query with id 1 are issued. |
| UsbPortAidl.UsbPortAidlClient.GetUsbHalVersion | services/usb/java/com/android/server/usb/hal/port/UsbPortAidl.java:76-84 | Throws `RemoteException` iff the proxy is null, and otherwise returns `USB_HAL_V2_0`. |
| UsbPortAidl.UsbPortAidlClient.SystemReady | services/usb/java/com/android/server/usb/hal/port/UsbPortAidl.java:87-89 | Sets the ready flag and changes no other state. |
| UsbPortAidl.UsbPortAidlClient.ConnectToProxy | services/usb/java/com/android/server/usb/hal/port/UsbPortAidl.java:99-118 | A no-op when a proxy exists or no service is found. Otherwise the new proxy receives `linkToDeath`, `setCallback` and one `queryPortStatus` carrying the incremented transaction id, and the counter grows by exactly one. |
| UsbPortAidl.UsbPortAidlClient.ServiceDied | services/usb/java/com/android/server/usb/hal/port/UsbPortAidl.java:91-97 | The proxy is dropped before reconnecting, so a new proxy is taken whenever the service is found again. Without the service the proxy ends null and the counter is unchanged. |
| UsbPortAidl.UsbPortAidlClient.EnableContaminantPresenceDetection | services/usb/java/com/android/server/usb/hal/port/UsbPortAidl.java:138-156 | With a null proxy no call is issued. Otherwise exactly one `enableContaminantPresenceDetection` call with the given arguments is issued. |
| UsbPortAidl.UsbPortAidlClient.QueryPortStatus | services/usb/java/com/android/server/usb/hal/port/UsbPortAidl.java:158-174 | With a null proxy no call is issued. Otherwise exactly one `queryPortStatus(operationID)` is issued. |
| UsbPortAidl.UsbPortAidlClient.SwitchMode | services/usb/java/com/android/server/usb/hal/port/UsbPortAidl.java:176-196 | With a null proxy no call is issued. Otherwise one `switchRole` is issued whose `PortRole` has only the mode set, narrowed to a byte. |
| UsbPortAidl.UsbPortAidlClient.SwitchPowerRole | services/usb/java/com/android/server/usb/hal/port/UsbPortAidl.java:198-218 | With a null proxy no call is issued. Otherwise one `switchRole` is issued whose `PortRole` has only the power role set. |
| UsbPortAidl.UsbPortAidlClient.SwitchDataRole | services/usb/java/com/android/server/usb/hal/port/UsbPortAidl.java:220-238 | With a null proxy no call is issued. Otherwise one `switchRole` is issued whose `PortRole` has only the data role set. |
| UsbPortAidl.UsbPortAidlClient.EnableUsbData | services/usb/java/com/android/server/usb/hal/port/UsbPortAidl.java:241-282 | This is the corrected member of the finding below. A missing port name or receiver is a `NullPointerException`. With a null proxy, the receiver gets `ERROR_INTERNAL`, the call returns false and `sCallbacks` is unchanged, also when the receiver throws. The source differs on that last point; see `EnableUsbDataAsWritten`. Otherwise one HAL call is issued with the key the key search gives. On success the registry gains exactly `key -> receiver` and the call returns true. On dispatch failure the receiver gets `ERROR_INTERNAL`, the registry is back to its prior contents and the call returns false. |
| UsbPortAidl.UsbPortAidlClient.EnableUsbDataAsWritten | services/usb/java/com/android/server/usb/hal/port/UsbPortAidl.java:241-282 | `enableUsbData` exactly as written. It matches `EnableUsbData` on every path except one: with a null proxy and a receiver that throws, the registry becomes `NullProxyRegistryAsWritten`, so an entry already pending under `operationID` is gone afterwards. A receiver that throws on the dispatch-failure path still leaves the registry as it was, because the outer handler removes the same key. |
| UsbPortAidl.NullProxyRegistryAsWritten | services/usb/java/com/android/server/usb/hal/port/UsbPortAidl.java:248-278 | The registry after `enableUsbData` as written, on the null-proxy path. It loses the entry under `operationID` when the receiver throws, and is unchanged otherwise. |
| UsbPortAidl.NullProxyDropsPendingEntry | services/usb/java/com/android/server/usb/hal/port/UsbPortAidl.java:273-278 | As written, an entry pending under id 7 disappears when a second `enableUsbData(…, 7, …)` meets a null proxy and a throwing receiver. |
| UsbPortAidl.HalCallback.constructor | services/usb/java/com/android/server/usb/hal/port/UsbPortAidl.java:133 | The callback is bound to its client and to that client's own port manager, so the batches it forwards reach the client's port manager. |
| UsbPortAidl.HalCallback.NotifyPortStatusChange | services/usb/java/com/android/server/usb/hal/port/UsbPortAidl.java:366-402 | Forwards nothing before `systemReady` or when `retval` is not `SUCCESS`. Otherwise the port manager gets exactly one batch, one translated entry per input element in input order. |
| UsbPortAidl.HalCallback.NotifyEnableUsbDataStatus | services/usb/java/com/android/server/usb/hal/port/UsbPortAidl.java:430-450 | The registered receiver gets `USB_OPERATION_SUCCESS` iff `retval` is `SUCCESS`, and `ERROR_INTERNAL` otherwise. The entry stays registered. An unregistered id ends in a `NullPointerException`. |
| BitCommandLine.Find | tools/bit/main.cpp:572-586 | `string::find`: the position of the first occurrence at or after `from`, or none when there is none. |
| BitCommandLine.JoinPieces | tools/bit/main.cpp:583-598 | Splitting at a separator and joining the pieces with it gives back the text, so the pieces are the text's own parts in order. |
| BitCommandLine.PiecesLackSeparator | tools/bit/main.cpp:583-598 | No piece of a split contains the separator. |
| BitCommandLine.NonEmptyKeeps | tools/bit/main.cpp:588-595 | Dropping empty pieces keeps exactly the non-empty ones. |
| BitCommandLine.PatternParts | tools/bit/main.cpp:572-599 | The target name is the text before the first `':'` and contains no `':'`. Without a colon it is the whole pattern and there are no actions. With one, name, colon and the comma-joined pieces rebuild the pattern. Actions are non-empty and contain no comma. |
| BitCommandLine.SpecialForms | tools/bit/main.cpp:497-514 | With two arguments, `-h`/`--help` gives help only and `--refresh` gives refresh only. With four or more and `--tab`, the result is tab completion of `argv[3]`. A successful parse that does not run phases is one of these forms. |
| BitCommandLine.LettersFail | tools/bit/main.cpp:525-567 | An option's letters fail iff one of them is not `-`, `b`, `i`, `t`, `n` or `r`. |
| BitCommandLine.LettersErrorKind | tools/bit/main.cpp:562-566 | A failing option reports an unrecognised option. |
| BitCommandLine.ArgumentsFail | tools/bit/main.cpp:522-603 | The argument scan fails iff some argument is an option with an unknown letter, or a pattern that starts with `':'`. |
| BitCommandLine.ArgumentsErrorPersists | tools/bit/main.cpp:562-578 | The first error ends the scan: later arguments do not change it. |
| BitCommandLine.ArgumentsErrorKind | tools/bit/main.cpp:562-578 | An error of the scan itself is never the no-pattern error. |
| BitCommandLine.TargetsFollowArguments | tools/bit/main.cpp:569-602 | One target per non-option argument, in command-line order, each with the name and actions of its pattern. |
| BitCommandLine.LettersPhases | tools/bit/main.cpp:525-555 | An option without phase letters leaves the phase state alone. The first phase letter after a pattern clears the other phase flags. After the option, each flag is set iff its letter appeared, or it was set and no pattern intervened. |
| BitCommandLine.OneLetterPhases | tools/bit/main.cpp:529-555 | The same statement for a single option letter. |
| BitCommandLine.PhasesInvariant | tools/bit/main.cpp:517-602 | After any prefix of the arguments, the phase variables agree with the letters and patterns seen (see `PhasesAgree`). |
| BitCommandLine.PatternPhases | tools/bit/main.cpp:570-571 | With no phase letter before it, a pattern builds, installs and tests. After phase letters since the last pattern, it gets exactly those phases. Otherwise it repeats the previous target's phases. |
| BitCommandLine.ParseFails | tools/bit/main.cpp:522-609 | Outside the special forms, parsing fails iff some argument is bad or there is no pattern. The no-pattern error occurs iff every argument is good and there is no pattern. |
| BitCommandLine.Target.constructor | tools/bit/main.cpp:61-70 | A target has the given phases and pattern, no name, no actions and zero counters. |
| BitCommandLine.Options.constructor | tools/bit/main.cpp:95-103 | Every option starts false or empty. |
| BitCommandLine.ScanOption | tools/bit/main.cpp:525-568 | The loop over an option's letters computes the specification's letter fold: the new phases and `-n`/`-r` flags, or the error of the first unknown letter. |
| BitCommandLine.SplitPattern | tools/bit/main.cpp:579-599 | The target's name is `TargetName(pattern)`, and its actions grow by `TargetActions(pattern)`. |
| BitCommandLine.SplitActions | tools/bit/main.cpp:583-598 | The comma loop appends exactly the non-empty comma-separated pieces after the colon, in order. |
| BitCommandLine.PatternTarget | tools/bit/main.cpp:570-599 | A pattern starting with `':'` is the no-module error. Any other pattern gives a fresh target matching the specification's target, with zero counters. |
| BitCommandLine.ScanArguments | tools/bit/main.cpp:517-603 | The argument loop fails iff the specification's scan fails, and with the same error. Otherwise the flags and the targets (fresh, in order) match the scan's. |
| BitCommandLine.ParseArgs | tools/bit/main.cpp:494-610 | `parse_args` fails iff `Parse` fails, and with the same error. Otherwise the options hold exactly the parsed command. |
| BitTestResults.TestAction.constructor | tools/bit/main.cpp:194 | A new action has zero pass, fail and ignore counts and no target. |
| BitTestResults.VerdictOf | tools/bit/main.cpp:237-307 | With results that name both a class and a test: 0 is a pass, -1 and -2 are failures, -3 is ignored, and nothing else counts (1 is "test starting"). Missing results or names are never counted. |
| BitTestResults.TestResults.constructor | tools/bit/main.cpp:210-229 | No current action, and a default session status. |
| BitTestResults.TestResults.SetCurrentAction | tools/bit/main.cpp:321-324 | The current action becomes the one given. |
| BitTestResults.TestResults.OnTestStatus | tools/bit/main.cpp:232-308 | The action's and its target's pass, fail or ignore count each grow by one according to the verdict, and every other counter stays. A status that is not counted changes nothing. |
| BitTestResults.TestResults.OnSessionStatus | tools/bit/main.cpp:311-330 | The session status is stored. `IsSuccess` holds iff its code is -1. The current target's unknown-failure count grows by one exactly when it does not. |
| BitTestResults.TestResults.ErrorMessage | tools/bit/main.cpp:333-341 | The session's short message when there is one. Otherwise it is empty iff the session succeeded, and "Unknown failure" when it did not. |
| BitTestResults.ResultSummary | tools/bit/main.cpp:465-487 | The line shows passed and failed counts, plus the ignored count only when tests were ignored. |
| BitTestResults.SummaryColors | tools/bit/main.cpp:471-479 | Red appears iff a test failed, and only on the failed count. Green appears iff none failed and some passed, and only on the passed count. A run with no results shows passed and failed in yellow. Ignored tests show yellow when none failed. |
| BitTestResults.GtestArguments | tools/bit/main.cpp:962-986 | If any action is `"*"` the test runs without a filter argument. Otherwise the filter is `--gtest_filter=` followed by the actions joined with `':'`. |
| BitTestResults.PiecesOfJoin | tools/bit/main.cpp:966-982 | Joining colon-free pieces with `':'` and splitting again gives back the pieces. |
| BitTestResults.FilterListsActions | tools/bit/main.cpp:966-982 | The filter argument names exactly the actions, in order, when none contains `':'`. |
| TransitionRequestInfoParcel.FlagByte | core/java/android/window/TransitionRequestInfo.java:148-150 | Bit 0x2 is set iff there is a trigger task, bit 0x4 iff there is a remote transition, and no other bit is set. |
| TransitionRequestInfoParcel.Encode | core/java/android/window/TransitionRequestInfo.java:148-154 | The flag byte, then the type, then the task if present, then the remote transition if present. A typed object is written iff its flag is set. |
| TransitionRequestInfoParcel.Decode | core/java/android/window/TransitionRequestInfo.java:168-171 | A successful read starts with a flag byte and the type. The presence of each optional field is read from bit 0x2 or bit 0x4 of that byte. The read ends after exactly 2 items plus one per field present, and the items it consumes are the encoding of what it read, up to the flag byte's other bits. |
| TransitionRequestInfoParcel.DecodeEncode | core/java/android/window/TransitionRequestInfo.java:144-180 | Reading what `writeToParcel` wrote, wherever it sits in the parcel, gives back the type and the presence of both fields and ends just after it. |
| TransitionRequestInfoParcel.DecodeUsesTwoBits | core/java/android/window/TransitionRequestInfo.java:170-171 | Reading looks only at bits 0x2 and 0x4 of the flag byte. |
| TransitionRequestInfoParcel.Parcel.WriteByte | core/java/android/window/TransitionRequestInfo.java:151 | Appends one byte item. |
| TransitionRequestInfoParcel.Parcel.WriteInt | core/java/android/window/TransitionRequestInfo.java:152 | Appends one int item. |
| TransitionRequestInfoParcel.Parcel.ReadByte | core/java/android/window/TransitionRequestInfo.java:168 | Reads the byte at the read position and advances, or yields nothing. |
| TransitionRequestInfoParcel.Parcel.ReadInt | core/java/android/window/TransitionRequestInfo.java:169 | Reads the int at the read position and advances, or yields nothing. |
| TransitionRequestInfoParcel.Parcel.ReadTypedTask | core/java/android/window/TransitionRequestInfo.java:170 | Reads a fresh task object and advances, or yields null. |
| TransitionRequestInfoParcel.Parcel.ReadTypedRemote | core/java/android/window/TransitionRequestInfo.java:171 | Reads a fresh remote-transition object and advances, or yields null. |
| TransitionRequestInfoParcel.Parcel.WriteTypedTask | core/java/android/window/TransitionRequestInfo.java:153 | Appends one task item. |
| TransitionRequestInfoParcel.Parcel.WriteTypedRemote | core/java/android/window/TransitionRequestInfo.java:154 | Appends one remote-transition item. |
| TransitionRequestInfoParcel.TransitionRequestInfo.constructor | core/java/android/window/TransitionRequestInfo.java:72-83 | Holds the given type, trigger task and remote transition. |
| TransitionRequestInfoParcel.TransitionRequestInfo.SetTriggerTask | core/java/android/window/TransitionRequestInfo.java:115-118 | Sets the trigger task only, and returns this object. |
| TransitionRequestInfoParcel.TransitionRequestInfo.SetRemoteTransition | core/java/android/window/TransitionRequestInfo.java:124-127 | Sets the remote transition only, and returns this object. |
| TransitionRequestInfoParcel.TransitionRequestInfo.WriteToParcel | core/java/android/window/TransitionRequestInfo.java:144-155 | Appends exactly the encoding of the object's content to the parcel. |
| TransitionRequestInfoParcel.TransitionRequestInfo.FromParcel | core/java/android/window/TransitionRequestInfo.java:164-180 | Builds a fresh object whose content is what `Decode` reads, and leaves the read position after it. Yields null iff `Decode` fails. |
| RankingCoordinator.SectionOf | packages/SystemUI/src/com/android/systemui/statusbar/notification/collection/coordinator/RankingCoordinator.java:68-80 | An entry is in the section it is filed under and in no other; it is Alerting iff it is high priority. |
| RankingCoordinator.SectionsPartition | packages/SystemUI/src/com/android/systemui/statusbar/notification/collection/coordinator/RankingCoordinator.java:68-80 | Every entry is in exactly one of Alerting and Silent. |
| RankingCoordinator.DozingFilterHides | packages/SystemUI/src/com/android/systemui/statusbar/notification/collection/coordinator/RankingCoordinator.java:94-104 | While dozing, an entry is dropped iff it suppresses ambient display. Otherwise it is dropped iff it suppresses the notification list. |
| RankingCoordinator.Attach | packages/SystemUI/src/com/android/systemui/statusbar/notification/collection/coordinator/RankingCoordinator.java:53-58 | Adds one dozing listener, then the suspended filter followed by the dozing filter. |
| RankingCoordinator.AttachedFilters | packages/SystemUI/src/com/android/systemui/statusbar/notification/collection/coordinator/RankingCoordinator.java:53-104 | After `attach`, an entry passes the pre-group filters iff it passed the earlier ones, is not suspended, and DND does not hide it from the current display. |
| RankingCoordinator.OnDozingChanged | packages/SystemUI/src/com/android/systemui/statusbar/notification/collection/coordinator/RankingCoordinator.java:106-112 | A dozing change invalidates the dozing filter only. |
| RankingCoordinator.DozingChangeInvalidatesWhatDepends | packages/SystemUI/src/com/android/systemui/statusbar/notification/collection/coordinator/RankingCoordinator.java:87-112 | The filters invalidated are exactly those whose verdict depends on the dozing state. |
| TimeZoneProviderRequests.TimeZoneProviderRequest.Equals | services/core/java/com/android/server/timezonedetector/location/TimeZoneProviderRequest.java:78-89 | True for the object itself, false for null and for other classes. Between requests it holds iff `sendUpdates` agrees and the timeout is the same object. |
| TimeZoneProviderRequests.RequestFactory.constructor | services/core/java/com/android/server/timezonedetector/location/TimeZoneProviderRequest.java:31-34 | `STOP_UPDATES` neither sends updates nor has a timeout. |
| TimeZoneProviderRequests.RequestFactory.CreateStartUpdatesRequest | services/core/java/com/android/server/timezonedetector/location/TimeZoneProviderRequest.java:48-51 | A null timeout is a `NullPointerException`. Otherwise the result is a fresh request that sends updates and holds that timeout object. |
| TimeZoneProviderRequests.RequestFactory.CreateStopUpdatesRequest | services/core/java/com/android/server/timezonedetector/location/TimeZoneProviderRequest.java:54-56 | Always the one shared stop request, with no updates and no timeout. |
| TimeZoneProviderRequests.EqualsSymmetric | services/core/java/com/android/server/timezonedetector/location/TimeZoneProviderRequest.java:78-89 | `equals` is symmetric. |
| TimeZoneProviderRequests.EqualsTransitive | services/core/java/com/android/server/timezonedetector/location/TimeZoneProviderRequest.java:78-89 | `equals` is transitive. |
| TimeZoneProviderRequests.NotEqualToDuration | services/core/java/com/android/server/timezonedetector/location/TimeZoneProviderRequest.java:82-84 | A request never equals a `Duration`. |
| TimeZoneProviderRequests.DistinctTimeoutsUnequal | services/core/java/com/android/server/timezonedetector/location/TimeZoneProviderRequest.java:87-88 | Start requests with different `Duration` objects are unequal, even when the durations have the same value. |
| TimeZoneProviderRequests.StartIsNotStop | services/core/java/com/android/server/timezonedetector/location/TimeZoneProviderRequest.java:48-89 | A start request never equals the stop request, and the stop request equals itself. |
| FakeStorage.AuthOf | services/tests/servicestests/src/com/android/server/locksettings/FakeStorageManager.java:54-61 | A user's list, or `[null]` for a user not seen yet. |
| FakeStorage.RemoveFirst | services/tests/servicestests/src/com/android/server/locksettings/FakeStorageManager.java:43 | `ArrayList.remove(Object)` drops the first reference-equal occurrence, if there is one, and keeps everything else in order. |
| FakeStorage.ArraysEqualByContent | services/tests/servicestests/src/com/android/server/locksettings/FakeStorageManager.java:80 | `Arrays.equals` holds iff both are null or both have the same contents. |
| FakeStorage.OperationsKeepListsNonEmpty | services/tests/servicestests/src/com/android/server/locksettings/FakeStorageManager.java:34-61 | Every operation keeps every stored list non-empty. |
| FakeStorage.OtherUsersUntouched | services/tests/servicestests/src/com/android/server/locksettings/FakeStorageManager.java:34-45 | Adding and clearing touch only the named user's list. |
| FakeStorage.ClearKeepsSizeWhenPresent | services/tests/servicestests/src/com/android/server/locksettings/FakeStorageManager.java:38-45 | Clearing a stored non-null secret replaces it with a null entry at the end. For a secret not in the list, a null entry is appended. |
| FakeStorage.AddThenFixate | services/tests/servicestests/src/com/android/server/locksettings/FakeStorageManager.java:34-52 | After adding a secret and fixating, that secret is the user's only entry. |
| FakeStorage.FakeStorageManager.constructor | services/tests/servicestests/src/com/android/server/locksettings/FakeStorageManager.java:31-32 | No users, and bad unlocks are not ignored. |
| FakeStorage.FakeStorageManager.GetUserAuth | services/tests/servicestests/src/com/android/server/locksettings/FakeStorageManager.java:54-61 | Creates `[null]` for an unknown user, and returns that user's list. |
| FakeStorage.FakeStorageManager.AddUserKeyAuth | services/tests/servicestests/src/com/android/server/locksettings/FakeStorageManager.java:34-36 | Appends the secret to the user's list. |
| FakeStorage.FakeStorageManager.ClearUserKeyAuth | services/tests/servicestests/src/com/android/server/locksettings/FakeStorageManager.java:38-45 | A null secret only creates the list. Otherwise its first occurrence is removed and a null entry appended. |
| FakeStorage.FakeStorageManager.FixateNewestUserKeyAuth | services/tests/servicestests/src/com/android/server/locksettings/FakeStorageManager.java:47-52 | Keeps only the newest entry. A user without a list is a `NullPointerException` and changes nothing. |
| FakeStorage.FakeStorageManager.GetUserUnlockToken | services/tests/servicestests/src/com/android/server/locksettings/FakeStorageManager.java:63-69 | Fails iff the user's list does not have exactly one entry. Otherwise returns that entry. |
| FakeStorage.FakeStorageManager.UnlockUser | services/tests/servicestests/src/com/android/server/locksettings/FakeStorageManager.java:71-85 | More than one entry is an assertion failure. A single entry with different contents is an "invalid secret" failure unless bad unlocks are ignored. |
| FakeStorage.FakeStorageManager.SetIgnoreBadUnlock | services/tests/servicestests/src/com/android/server/locksettings/FakeStorageManager.java:87-89 | Sets the flag. |

## Left out

- Binder and service-manager plumbing:
  - `waitForService`, `asInterface`, `linkToDeath` and `setCallback` are recorded as calls on an opaque proxy;
  - `isServicePresent` and the interface hash and version methods are left out;
  - remote failures are boolean parameters.
  - `waitForService` throwing `NoSuchElementException` is the `NotFound` lookup. A `queryPortStatus` that throws leaves the same state as one that returns, since the counter is incremented first, so the model does not tell them apart.
- Concurrency:
  - the model is sequential;
  - `synchronized (mLock)` and the unlocked `mSystemReady` write are left out;
  - `sCallbacks` is a field of the one client object, not a process-wide static.
- All logging: `logAndPrint`, `logAndPrintException`, `bit`'s `print_one_line`, `printf` of test outcomes, and ANSI escapes.
  - `ResultSummary` returns coloured segments instead of printing.
  - `notifyRoleSwitchStatus`, `notifyQueryPortStatus` and `notifyContaminantEnabledStatus` only log, so they are not modelled.
- UsbPortAidl.UsbPortAidlClient.EnableUsbDataAsWritten has the same `DrawsSuffice` requirement as `EnableUsbData`, for the reason below.
- UsbPortAidl.UsbPortAidlClient.EnableUsbData requires `DrawsSuffice`: the random draws must contain an unused key whenever `operationID` is taken. `ThreadLocalRandom` gives no bound on the search, so the loop's termination rests on that assumption.
- UsbPortAidl.ChooseKey has the same `DrawsSuffice` requirement, for the same reason.
- The core of `bit` leaves out:
  - `run_phases`, adb, builds and the file system, `run_refresh` and `run_tab_completion`;
  - the environment and `print_usage`.
  - `exit(1)` is an error result.
  - The pattern's `Module` lookup is left out of `Target`.
  - `testActionCount` and the `run_adb` call around the filter builder are left out.
  - `TestAction`'s strings are not used by the counters.
- BitTestResults.TestResults.OnTestStatus:
  - does not model 32-bit overflow of the `int` counters;
  - requires a current action with a target whenever the status would be counted, since the source dereferences both (it leaves `TestAction::target` uninitialised, which the model writes as null).
- BitTestResults.TestResults.OnSessionStatus requires the current action, when there is one, to have a target, for the same reason.
- BitTestResults.GtestArguments is stated for any action list; the source only builds a filter when a target has actions.
- Parcel:
  - a `Parcel` is a sequence of tagged items;
  - reading an item of the wrong kind yields nothing or null here, where a real parcel would reinterpret bytes;
  - the contents of `RunningTaskInfo` and `RemoteTransition` and `AnnotationValidations.validate` are not modelled, nor are `toString` and `describeContents`.
- TransitionRequestInfoParcel.TransitionRequestInfo.FromParcel does not say where the read position ends when decoding fails.
- `RankingCoordinator`:
  - `HighPriorityProvider` is a predicate parameter and the dozing state of `StatusBarStateController` a boolean parameter;
  - the filters' `now` argument is not consulted by the source either.
- `Duration` is an object with `seconds` and `nanos` compared only by reference. `hashCode` and `toString` are not modelled.
- FakeStorage.FakeStorageManager.UnlockUser does not model the `IProgressListener` calls, which are foreign; a null listener would throw there first.

## Findings

| source | as written | input that shows it | evidently intended | confidence | as-written member | corrected member |
|---|---|---|---|---|---|---|
| services/usb/java/com/android/server/usb/hal/port/UsbPortAidl.java:248-278 | With a null proxy, `callback.onOperationComplete` throwing `RemoteException` reaches the outer handler. That handler runs `sCallbacks.remove(key)` while `key` is still the caller's `operationID`, although nothing was registered. | An operation pending under id 7. The HAL proxy then dies, and a second `enableUsbData(port, true, 7, cb)` is called whose `cb` throws. The earlier entry is removed, so its completion later fails with a `NullPointerException`. | An entry is removed only if this call registered it. On the null-proxy path the registry stays as it was. | not executed; medium | UsbPortAidl.UsbPortAidlClient.EnableUsbDataAsWritten, UsbPortAidl.NullProxyDropsPendingEntry | UsbPortAidl.UsbPortAidlClient.EnableUsbData |
