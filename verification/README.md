# ChanelRFIDPlugin in Dafny

This project is a verified model of the core of ChanelRFIDPlugin. The plugin is a Swift library that finds Chanel RFID
readers over Bluetooth Low Energy, connects to one, and drives it with a small text protocol. Commands go out on a
write characteristic. Answers come back as notification frames on a notify characteristic.

The model follows the plugin's own structure:

- `Wrappers` holds the `Option` type.
- `Strings` models the Swift string operations the plugin relies on: `hasPrefix`, `contains`, and
  `components(separatedBy: "|")` as `Split`, with its inverse `Join`.
- `Integers` models Swift's `Int(String)` as `ParseInt`. It accepts an optional sign and one or more ASCII digits, and
  returns nothing outside the 64-bit range. String interpolation of an `Int` is modelled as `Show`.
- `RfidErrors` holds the `RFIDError` cases and `errorDescription`, plus the transport errors the plugin passes on
  unchanged. The plugin reports `invalidParameter`, `invalidParameterValue` and `parameterOperationFailed`, but the
  enum does not declare them. The model adds these three cases, with messages of its own.
- `BleDevices` holds the `BLEDevice` record: its initialiser, its id-only equality and its `description`.
- `Validation` holds the parameter validators `isValidParameter` and `isValidParameterValue`.
- `Frames` holds two things:
  - the wire text of the five commands, with a decoder that inverts it;
  - the classification of incoming frames, in the plugin's priority order.
- `Registry` holds the discovery list. It admits only names containing `BZNC RFID READER`, and keeps no duplicates, in
  first-seen order.
- `Handshake` holds the reader's service and characteristic identifiers and the search for the service. It also holds
  the characteristic scan, which stops as soon as both the write and the notify characteristic have been seen.
- `RfidPlugin` holds the class `Plugin`. It has the plugin's fields and one method per public command and per
  Bluetooth delegate event. Each method states the whole new state:
  - the link (peripheral, write and notify handles);
  - the nine pending-callback slots;
  - the discovery list;
  - a log of completion-handler calls (`delivered`);
  - a log of requests made of the Bluetooth stack (`effects`).
- `Scenarios` runs whole exchanges on a fresh plugin. For each, it states what the callers are told and what frames
  are written.

A caller's completion handler is stood for by a `Token`. Bluetooth events, including the five-second discovery
timer, are method calls made by the environment, one at a time. The plugin receives the delegate events on one serial
queue, so they are indeed handled one at a time. The public commands, however, run on the caller's thread; the model
treats each command as atomic with respect to the events.

Behaviours of the code worth knowing:

- A link loss (`didDisconnectPeripheral`) empties only the disconnect slot. The other pending commands are neither
  answered nor cleared.
- A disconnect event that carries an error reports failure (`false` with the error), not success.
- A write error reported to the scan caller leaves the scan slot occupied.
- When the characteristic scan finds the write characteristic but not the notify one, the connection fails with
  `characteristicNotFound`. The write handle stays set, so later commands pass their "connected" guard and are
  written.
- Power loss answers every occupied slot with `notConnected` but empties only the parked list request. A caller
  can therefore be answered again later; for example, the disconnect caller is answered by the following disconnect
  event.
- A second `listDevices` made before power-on replaces the parked one, which is never answered.

## Model

| member | source | states |
|---|---|---|
| `RfidErrors.ErrorDescription` | ChanelRFIDPlugin/Sources/ChanelRFIDPlugin/RFIDError.swift:36-57 | every error case, including the three added ones, has a description, and a general error is described by exactly the message it carries |
| `RfidErrors.FixedMessagesAreDistinct` | ChanelRFIDPlugin/Sources/ChanelRFIDPlugin/RFIDError.swift:38-53 | two different fixed-message cases never have the same description |
| `BleDevices.MakeDevice` | ChanelRFIDPlugin/Sources/ChanelRFIDPlugin/BLEDevice.swift:23-28 | the id is the peripheral's identifier, the name and rssi are the arguments, and the peripheral is always present |
| `BleDevices.SameDeviceIsEquivalence` | ChanelRFIDPlugin/Sources/ChanelRFIDPlugin/BLEDevice.swift:34-35 | device equality is reflexive, symmetric and transitive |
| `BleDevices.SamePeripheralSameDevice` | ChanelRFIDPlugin/Sources/ChanelRFIDPlugin/BLEDevice.swift:34-35 | two devices built from one peripheral are equal whatever their names and signal strengths |
| `BleDevices.DistinctIdentifiersDistinctDevices` | ChanelRFIDPlugin/Sources/ChanelRFIDPlugin/BLEDevice.swift:34-35 | devices of peripherals with different identifiers are never equal, even with equal name and rssi |
| `BleDevices.Description` | ChanelRFIDPlugin/Sources/ChanelRFIDPlugin/BLEDevice.swift:42-43 | the description is `BLEDevice(name: ` then the name, `, rssi: `, the number after a space, and `)` |
| `BleDevices.DescriptionDeterminesNameAndRssi` | ChanelRFIDPlugin/Sources/ChanelRFIDPlugin/BLEDevice.swift:42-43 | equal descriptions mean equal names and equal signal strengths |
| `Strings.Split` | ChanelRFIDPlugin/Sources/ChanelRFIDPlugin/ChanelRFIDPlugin.swift:454 | splitting on `\|` gives at least one field, no field contains `\|`, and one field exactly when there is no `\|` |
| `Strings.JoinSplit` | ChanelRFIDPlugin/Sources/ChanelRFIDPlugin/ChanelRFIDPlugin.swift:454 | joining the fields with `\|` gives back the frame |
| `Strings.SplitJoin` | ChanelRFIDPlugin/Sources/ChanelRFIDPlugin/ChanelRFIDPlugin.swift:454 | splitting a join of bar-free fields gives back the fields |
| `Strings.ContainsChar` | ChanelRFIDPlugin/Sources/ChanelRFIDPlugin/ChanelRFIDPlugin.swift:452 | a text contains a one-character string exactly when it contains that character |
| `Strings.MissingCharExcludes` | ChanelRFIDPlugin/Sources/ChanelRFIDPlugin/ChanelRFIDPlugin.swift:320 | a text lacking one character of a pattern does not contain the pattern |
| `Integers.ParseInt` | ChanelRFIDPlugin/Sources/ChanelRFIDPlugin/ChanelRFIDPlugin.swift:272-283 | `Int(value)` yields only values within the 64-bit range, and a negative one only from a text starting with `-` |
| `Integers.ParseShow` | ChanelRFIDPlugin/Sources/ChanelRFIDPlugin/ChanelRFIDPlugin.swift:272 | parsing a number's decimal text gives the number back inside the 64-bit range and nothing outside it |
| `Integers.ShowInjective` | ChanelRFIDPlugin/Sources/ChanelRFIDPlugin/BLEDevice.swift:43 | different numbers are printed differently |
| `Integers.ParseIntAlphabet` | ChanelRFIDPlugin/Sources/ChanelRFIDPlugin/ChanelRFIDPlugin.swift:272 | a text that parses holds only digits and signs, and never `\|` |
| `Integers.ParseIntNeedsADigit` | ChanelRFIDPlugin/Sources/ChanelRFIDPlugin/ChanelRFIDPlugin.swift:272 | the empty text and a lone sign do not parse |
| `Integers.ParseIgnoresLeadingZero` | ChanelRFIDPlugin/Sources/ChanelRFIDPlugin/ChanelRFIDPlugin.swift:272 | a leading zero does not change the parsed value |
| `Integers.ParseIgnoresPlus` | ChanelRFIDPlugin/Sources/ChanelRFIDPlugin/ChanelRFIDPlugin.swift:272 | a leading `+` does not change the parsed value |
| `Validation.IsValidParameter` | ChanelRFIDPlugin/Sources/ChanelRFIDPlugin/ChanelRFIDPlugin.swift:258-261 | a valid name is non-empty, holds neither `\|` nor `:`, and starts with neither `t` nor `S`, so `<name>\|<value>` is never taken for a tag or status frame |
| `Validation.IsValidParameterValue` | ChanelRFIDPlugin/Sources/ChanelRFIDPlugin/ChanelRFIDPlugin.swift:268-288 | a value is accepted only for one of the three parameter names, and a power or interval value only when it parses to a positive 64-bit number |
| `Validation.PowerValuesAreTheSettings` | ChanelRFIDPlugin/Sources/ChanelRFIDPlugin/ChanelRFIDPlugin.swift:270-273 | a power value is accepted exactly when it parses to one of the twelve settings 1500, 1600, ..., 2600 |
| `Validation.PowerSettingAccepted` | ChanelRFIDPlugin/Sources/ChanelRFIDPlugin/ChanelRFIDPlugin.swift:270-273 | each of the twelve power settings, written in decimal, is accepted |
| `Validation.IntervalAcceptsExactlyPositive` | ChanelRFIDPlugin/Sources/ChanelRFIDPlugin/ChanelRFIDPlugin.swift:280-283 | a 64-bit number written in decimal is accepted as an interval exactly when it is positive |
| `Validation.ValidValueHasNoBar` | ChanelRFIDPlugin/Sources/ChanelRFIDPlugin/ChanelRFIDPlugin.swift:268-288 | no accepted value contains `\|`, so the set frame keeps its three fields |
| `Validation.ValidValueHasNoColon` | ChanelRFIDPlugin/Sources/ChanelRFIDPlugin/ChanelRFIDPlugin.swift:268-288 | no accepted value contains `:` |
| `Validation.PowerBoundaries` | ChanelRFIDPlugin/Sources/ChanelRFIDPlugin/ChanelRFIDPlugin.swift:270-273 | power 1500 and 2600 pass; 1550 and 2700 are refused |
| `Validation.PowerLenientSpellings` | ChanelRFIDPlugin/Sources/ChanelRFIDPlugin/ChanelRFIDPlugin.swift:272 | `01500` and `+1500` are accepted as power values |
| `Validation.UnknownParameterRefused` | ChanelRFIDPlugin/Sources/ChanelRFIDPlugin/ChanelRFIDPlugin.swift:258-261 | `bogus` is not a parameter name and no value is valid for it |
| `Frames.Encode` | ChanelRFIDPlugin/Sources/ChanelRFIDPlugin/ChanelRFIDPlugin.swift:130-244 | each frame starts with its verb (`set` or `get`) and a `\|`, except `reboot`, the only frame without a `\|` |
| `Frames.DecodeEncode` | ChanelRFIDPlugin/Sources/ChanelRFIDPlugin/ChanelRFIDPlugin.swift:121-251 | the frame of every well-formed command (fields free of `\|`, and no set of `scan` to `0` or `1`) decodes back to that command |
| `Frames.EncodeInjective` | ChanelRFIDPlugin/Sources/ChanelRFIDPlugin/ChanelRFIDPlugin.swift:121-251 | two well-formed commands (fields free of `\|`, and no set of `scan` to `0` or `1`) with the same frame are the same command |
| `Frames.ValidatedCommandsRoundTrip` | ChanelRFIDPlugin/Sources/ChanelRFIDPlugin/ChanelRFIDPlugin.swift:196-250 | set and get frames of validated names and values decode back to their commands |
| `Frames.RegionEuRoundTrip` | ChanelRFIDPlugin/Sources/ChanelRFIDPlugin/ChanelRFIDPlugin.swift:216 | setting the region to EU writes `set\|region\|EU`, which decodes back to that command |
| `Frames.Classify` | ChanelRFIDPlugin/Sources/ChanelRFIDPlugin/ChanelRFIDPlugin.swift:434-463 | a frame is a tag read exactly when it starts with `tag\|`; the fallback for a get reply with fewer than two fields never fires; a parameter value is read only while a get is awaited, from a frame with a `\|`, and holds no `\|` |
| `Frames.SecondFieldLayout` | ChanelRFIDPlugin/Sources/ChanelRFIDPlugin/ChanelRFIDPlugin.swift:454-456 | in a frame with a `\|`, the second field is the text after the first `\|` up to the next one |
| `Frames.ParameterValueIsSecondField` | ChanelRFIDPlugin/Sources/ChanelRFIDPlugin/ChanelRFIDPlugin.swift:452-458 | a parameter value is only read while a get is awaited, and is the second field of the frame |
| `Frames.PastStatusRules` | ChanelRFIDPlugin/Sources/ChanelRFIDPlugin/ChanelRFIDPlugin.swift:434-463 | a frame that starts with neither `t` nor `S` and has no `:` reaches the get rule, or is dropped |
| `Frames.TagComesFirst` | ChanelRFIDPlugin/Sources/ChanelRFIDPlugin/ChanelRFIDPlugin.swift:434-437 | `tag\|` followed by any text is a tag read of that text, even while a get is awaited |
| `Frames.AwaitingMattersOnlyWithBar` | ChanelRFIDPlugin/Sources/ChanelRFIDPlugin/ChanelRFIDPlugin.swift:452 | whether a get is awaited changes nothing for a frame without `\|` |
| `Frames.ValidGetReplyRouted` | ChanelRFIDPlugin/Sources/ChanelRFIDPlugin/ChanelRFIDPlugin.swift:452-458 | the reply `<name>\|<value>` to a valid get yields the value while the get is awaited and is dropped otherwise |
| `Frames.SampleFrames` | ChanelRFIDPlugin/Sources/ChanelRFIDPlugin/ChanelRFIDPlugin.swift:434-451 | `tag\|A1B2` reads tag A1B2, `SET:OK` is a set success and `SET:ERROR` a set rejection |
| `Frames.RegionEuReplyRead` | ChanelRFIDPlugin/Sources/ChanelRFIDPlugin/ChanelRFIDPlugin.swift:452-458 | the reply `region\|EU` to a pending get is read as the value `EU` |
| `Registry.Observe` | ChanelRFIDPlugin/Sources/ChanelRFIDPlugin/ChanelRFIDPlugin.swift:318-328 | a discovery event only appends, at most one device, and only the device an admitted sighting of an unlisted peripheral creates |
| `Registry.ObservePreserves` | ChanelRFIDPlugin/Sources/ChanelRFIDPlugin/ChanelRFIDPlugin.swift:318-328 | a discovery event keeps the list duplicate-free and admitted, and only appends to it |
| `Registry.ObserveListed` | ChanelRFIDPlugin/Sources/ChanelRFIDPlugin/ChanelRFIDPlugin.swift:318-328 | after an event an id is listed exactly when it was listed before or the event admitted it |
| `Registry.SessionWellFormed` | ChanelRFIDPlugin/Sources/ChanelRFIDPlugin/ChanelRFIDPlugin.swift:318-328 | the list built by any sequence of sightings is duplicate-free and admitted |
| `Registry.SessionListsAdmitted` | ChanelRFIDPlugin/Sources/ChanelRFIDPlugin/ChanelRFIDPlugin.swift:318-328 | an id is listed exactly when some sighting admitted it |
| `Registry.SessionEntriesAreFirstSightings` | ChanelRFIDPlugin/Sources/ChanelRFIDPlugin/ChanelRFIDPlugin.swift:321-326 | each entry carries the name and signal strength of its id's first admitted sighting |
| `Registry.SessionInFirstSeenOrder` | ChanelRFIDPlugin/Sources/ChanelRFIDPlugin/ChanelRFIDPlugin.swift:324-326 | entries are in the order in which their ids were first admitted |
| `Registry.RefusedNeverListed` | ChanelRFIDPlugin/Sources/ChanelRFIDPlugin/ChanelRFIDPlugin.swift:320 | a peripheral that was never sighted with a name containing the vendor tag is never listed |
| `Handshake.FirstServiceIndex` | ChanelRFIDPlugin/Sources/ChanelRFIDPlugin/ChanelRFIDPlugin.swift:372-377 | the position found is that of the first service with the reader's identifier, or the end when there is none |
| `Handshake.Step` | ChanelRFIDPlugin/Sources/ChanelRFIDPlugin/ChanelRFIDPlugin.swift:399-408 | examining one characteristic never clears a found flag |
| `Handshake.Run` | ChanelRFIDPlugin/Sources/ChanelRFIDPlugin/ChanelRFIDPlugin.swift:399-414 | the scan never clears a found flag, and subscribes at most once per characteristic examined |
| `Handshake.RunCompletesIff` | ChanelRFIDPlugin/Sources/ChanelRFIDPlugin/ChanelRFIDPlugin.swift:396-414 | a scan completes exactly when each kind not yet found appears further on in the list |
| `Handshake.HandshakeSucceedsIff` | ChanelRFIDPlugin/Sources/ChanelRFIDPlugin/ChanelRFIDPlugin.swift:396-417 | the handshake succeeds exactly when the service reports both a write and a notify characteristic |
| `Handshake.RunCoherent` | ChanelRFIDPlugin/Sources/ChanelRFIDPlugin/ChanelRFIDPlugin.swift:399-408 | the scan keeps each handle of its own kind, sets a handle once its kind is found, and subscribes only to notify characteristics, the stored one last |
| `Handshake.SuccessSetsBothHandles` | ChanelRFIDPlugin/Sources/ChanelRFIDPlugin/ChanelRFIDPlugin.swift:399-412 | after success both handles are set to characteristics of their kind and the notify one is subscribed to |
| `Handshake.PartialHandshakeKeepsWriteHandle` | ChanelRFIDPlugin/Sources/ChanelRFIDPlugin/ChanelRFIDPlugin.swift:399-417 | a service with a write but no notify characteristic fails the handshake yet leaves the write handle set |
| `RfidPlugin.SetRefusal` | ChanelRFIDPlugin/Sources/ChanelRFIDPlugin/ChanelRFIDPlugin.swift:196-211 | a set goes ahead exactly when linked with a valid name and value; otherwise it is refused for the first failed check, in the order link, name, value: `notConnected` only without a link, `invalidParameter` only when linked with an unknown name, `invalidParameterValue` only when linked with a known name |
| `RfidPlugin.GetRefusal` | ChanelRFIDPlugin/Sources/ChanelRFIDPlugin/ChanelRFIDPlugin.swift:229-239 | a get goes ahead exactly when linked with a valid name; `notConnected` only without a link, `invalidParameter` only when linked with an unknown name |
| `RfidPlugin.AcceptedParameterFramesDecode` | ChanelRFIDPlugin/Sources/ChanelRFIDPlugin/ChanelRFIDPlugin.swift:213-250 | an accepted set or get writes, on the write characteristic, a frame that decodes to that very command |
| `RfidPlugin.AfterWriteFailure` | ChanelRFIDPlugin/Sources/ChanelRFIDPlugin/ChanelRFIDPlugin.swift:466-486 | a write error changes only the slots and the log: it keeps the scan caller registered, and adds at most one handler call to the log |
| `RfidPlugin.WriteFailureSlot` | ChanelRFIDPlugin/Sources/ChanelRFIDPlugin/ChanelRFIDPlugin.swift:469-483 | a write error is reported to an occupied command slot |
| `RfidPlugin.WriteFailureSlotIsFirstOccupied` | ChanelRFIDPlugin/Sources/ChanelRFIDPlugin/ChanelRFIDPlugin.swift:469-483 | the slot chosen is the occupied one first in the order scan, stopScan, reset, set, get, and there is none when all five are empty |
| `RfidPlugin.WriteFailureBySlot` | ChanelRFIDPlugin/Sources/ChanelRFIDPlugin/ChanelRFIDPlugin.swift:469-483 | the plugin's chain of checks agrees with the slot-by-slot rule: the chosen slot's caller gets the failure in its shape, and that slot is emptied unless it is the scan slot |
| `RfidPlugin.WriteFailureReachesOneCaller` | ChanelRFIDPlugin/Sources/ChanelRFIDPlugin/ChanelRFIDPlugin.swift:466-486 | a write error reaches exactly the chosen caller with the error, empties its slot unless it is the scan slot, and changes nothing else |
| `RfidPlugin.PowerOffNotices` | ChanelRFIDPlugin/Sources/ChanelRFIDPlugin/ChanelRFIDPlugin.swift:302-313 | power loss sends at most one notice per slot, each a `notConnected` failure and none a success |
| `RfidPlugin.PowerOffTellsEveryCaller` | ChanelRFIDPlugin/Sources/ChanelRFIDPlugin/ChanelRFIDPlugin.swift:302-313 | power loss tells every occupied slot's caller `notConnected`, in the shape that caller takes, and reports no success |
| `RfidPlugin.LossNoticesCover` | ChanelRFIDPlugin/Sources/ChanelRFIDPlugin/ChanelRFIDPlugin.swift:303-313 | over any list of slots, every notice carries `notConnected` and no success, and every occupied listed slot is told |
| `RfidPlugin.PowerOffLoneCaller` | ChanelRFIDPlugin/Sources/ChanelRFIDPlugin/ChanelRFIDPlugin.swift:303-313 | with a single handler pending, power loss tells that handler alone, once |
| `RfidPlugin.Route` | ChanelRFIDPlugin/Sources/ChanelRFIDPlugin/ChanelRFIDPlugin.swift:434-463 | a notification changes only the slots and the log, adds at most one handler call, and an unrecognised frame changes nothing |
| `RfidPlugin.RouteOnlyResolves` | ChanelRFIDPlugin/Sources/ChanelRFIDPlugin/ChanelRFIDPlugin.swift:434-463 | a notification only keeps or empties slots, and a caller it answers was pending |
| `RfidPlugin.GetReplyReachesGetCaller` | ChanelRFIDPlugin/Sources/ChanelRFIDPlugin/ChanelRFIDPlugin.swift:452-458 | the reply to a valid get gives its value to the get caller and empties the get slot |
| `RfidPlugin.HandshakeReadiness` | ChanelRFIDPlugin/Sources/ChanelRFIDPlugin/ChanelRFIDPlugin.swift:396-417 | after a successful handshake, or one that found only the write characteristic, commands pass their link guard |
| `RfidPlugin.Plugin.constructor` | ChanelRFIDPlugin/Sources/ChanelRFIDPlugin/ChanelRFIDPlugin.swift:67-70 | a new plugin is not powered on, has no link, no pending callers, an empty list and empty logs |
| `RfidPlugin.Plugin.ListDevices` | ChanelRFIDPlugin/Sources/ChanelRFIDPlugin/ChanelRFIDPlugin.swift:76-85 | before power-on the caller is parked, replacing any parked one; afterwards a scan round starts |
| `RfidPlugin.Plugin.StartScanning` | ChanelRFIDPlugin/Sources/ChanelRFIDPlugin/ChanelRFIDPlugin.swift:89-103 | a round empties the list, registers the caller, starts the scan and arms the timer |
| `RfidPlugin.Plugin.DiscoveryTimerFired` | ChanelRFIDPlugin/Sources/ChanelRFIDPlugin/ChanelRFIDPlugin.swift:97-102 | the timer stops the scan, hands the list to the discovery caller if any, and empties that slot |
| `RfidPlugin.Plugin.Connect` | ChanelRFIDPlugin/Sources/ChanelRFIDPlugin/ChanelRFIDPlugin.swift:109-117 | a device without a peripheral is refused as invalid; otherwise the caller is registered and a connection requested |
| `RfidPlugin.Plugin.StartScan` | ChanelRFIDPlugin/Sources/ChanelRFIDPlugin/ChanelRFIDPlugin.swift:121-137 | without a link it answers `notConnected` and writes nothing; otherwise it registers the caller and writes `set\|scan\|1` |
| `RfidPlugin.Plugin.StopScan` | ChanelRFIDPlugin/Sources/ChanelRFIDPlugin/ChanelRFIDPlugin.swift:141-157 | without a link it answers `notConnected` and writes nothing; otherwise it registers the caller and writes `set\|scan\|0` |
| `RfidPlugin.Plugin.Disconnect` | ChanelRFIDPlugin/Sources/ChanelRFIDPlugin/ChanelRFIDPlugin.swift:161-169 | without a peripheral it answers `notConnected`; otherwise it registers the caller and asks to cancel the connection |
| `RfidPlugin.Plugin.Reset` | ChanelRFIDPlugin/Sources/ChanelRFIDPlugin/ChanelRFIDPlugin.swift:173-189 | without a link it answers `notConnected` and writes nothing; otherwise it registers the caller and writes `reboot` |
| `RfidPlugin.Plugin.SetParameter` | ChanelRFIDPlugin/Sources/ChanelRFIDPlugin/ChanelRFIDPlugin.swift:196-223 | a refused set answers the first failed check and changes nothing else; an accepted one registers the caller and writes `set\|<name>\|<value>` |
| `RfidPlugin.Plugin.GetParameter` | ChanelRFIDPlugin/Sources/ChanelRFIDPlugin/ChanelRFIDPlugin.swift:229-251 | a refused get answers the first failed check and changes nothing else; an accepted one registers the caller and writes `get\|<name>` |
| `RfidPlugin.Plugin.DidUpdateState` | ChanelRFIDPlugin/Sources/ChanelRFIDPlugin/ChanelRFIDPlugin.swift:294-316 | power-on starts the parked round; any other state answers every occupied slot with `notConnected` and empties only the parked one |
| `RfidPlugin.Plugin.DidDiscover` | ChanelRFIDPlugin/Sources/ChanelRFIDPlugin/ChanelRFIDPlugin.swift:318-328 | the list becomes the registry's update for this sighting; nothing else changes |
| `RfidPlugin.Plugin.DidConnect` | ChanelRFIDPlugin/Sources/ChanelRFIDPlugin/ChanelRFIDPlugin.swift:330-334 | the peripheral is recorded and its reader service is looked up |
| `RfidPlugin.Plugin.DidFailToConnect` | ChanelRFIDPlugin/Sources/ChanelRFIDPlugin/ChanelRFIDPlugin.swift:336-339 | the connect caller gets the transport error, or `connectionFailed`, and its slot is emptied |
| `RfidPlugin.Plugin.DidDisconnect` | ChanelRFIDPlugin/Sources/ChanelRFIDPlugin/ChanelRFIDPlugin.swift:341-353 | the peripheral and both handles are dropped, the disconnect caller gets success or the error and is emptied, and other slots stay |
| `RfidPlugin.Plugin.DidDiscoverServices` | ChanelRFIDPlugin/Sources/ChanelRFIDPlugin/ChanelRFIDPlugin.swift:359-381 | an error or a missing reader service fails and empties the connect slot; otherwise the first reader service's characteristics are looked up |
| `RfidPlugin.Plugin.DidDiscoverCharacteristics` | ChanelRFIDPlugin/Sources/ChanelRFIDPlugin/ChanelRFIDPlugin.swift:383-418 | the handles and subscriptions are those of the characteristic scan; the connect caller learns whether it completed; the slot is emptied on every path |
| `RfidPlugin.Plugin.TakeCharacteristics` | ChanelRFIDPlugin/Sources/ChanelRFIDPlugin/ChanelRFIDPlugin.swift:396-414 | the loop leaves the handles and subscriptions of the characteristic scan and tells whether it completed |
| `RfidPlugin.Plugin.DidUpdateValue` | ChanelRFIDPlugin/Sources/ChanelRFIDPlugin/ChanelRFIDPlugin.swift:420-431 | a read error goes to the scan caller, who stays; an empty or undecodable payload changes nothing; a text frame is routed by its class |
| `RfidPlugin.Plugin.Dispatch` | ChanelRFIDPlugin/Sources/ChanelRFIDPlugin/ChanelRFIDPlugin.swift:434-463 | each class of frame answers and empties its slot, tags keep the scan slot, and unrecognised frames change nothing |
| `RfidPlugin.Plugin.DidWriteValue` | ChanelRFIDPlugin/Sources/ChanelRFIDPlugin/ChanelRFIDPlugin.swift:466-486 | a write error on the write characteristic goes to the chosen slot; any other write completion changes nothing |
| `Scenarios.HandshakeAnswersConnectCaller` | ChanelRFIDPlugin/Sources/ChanelRFIDPlugin/ChanelRFIDPlugin.swift:330-418 | a full handshake answers the connect caller once with success, after connect, service, characteristic and subscribe requests, and leaves the plugin ready |
| `Scenarios.TagsReachTheScanCaller` | ChanelRFIDPlugin/Sources/ChanelRFIDPlugin/ChanelRFIDPlugin.swift:434-437 | `tag\|A1B2` and `tag\|C3D4` each reach the scan caller, who stays registered |
| `Scenarios.SetRejectedThenLateSuccess` | ChanelRFIDPlugin/Sources/ChanelRFIDPlugin/ChanelRFIDPlugin.swift:444-451 | `SET:ERROR` answers the set caller with `parameterOperationFailed`; a later `SET:OK` answers nobody |
| `Scenarios.RegionIsRead` | ChanelRFIDPlugin/Sources/ChanelRFIDPlugin/ChanelRFIDPlugin.swift:452-458 | `get\|region` is written and the reply `region\|EU` hands `EU` to the caller |
| `Scenarios.RefusedParametersWriteNothing` | ChanelRFIDPlugin/Sources/ChanelRFIDPlugin/ChanelRFIDPlugin.swift:203-211 | power 1550 and 2700 are refused as invalid values and `bogus` as an invalid name, with no frame written |
| `Scenarios.LinkLossLeavesResetPending` | ChanelRFIDPlugin/Sources/ChanelRFIDPlugin/ChanelRFIDPlugin.swift:341-353 | a link loss leaves a pending reset unanswered and registered, and the next command is refused as not connected |
| `Scenarios.PartialHandshakeStillWrites` | ChanelRFIDPlugin/Sources/ChanelRFIDPlugin/ChanelRFIDPlugin.swift:396-417 | with no notify characteristic the connection fails, yet a scan command is still written |
| `Scenarios.PowerLossAnswersDisconnectTwice` | ChanelRFIDPlugin/Sources/ChanelRFIDPlugin/ChanelRFIDPlugin.swift:301-316 | for any caller, power loss answers its pending disconnect with `notConnected`, and the disconnect event answers it again with success |
| `Scenarios.DiscoveryRound` | ChanelRFIDPlugin/Sources/ChanelRFIDPlugin/ChanelRFIDPlugin.swift:76-103 | a request parked until power-on gets only the reader, once, at the strength first heard |

## Left out

- CoreBluetooth itself is not modelled. The model records connect, cancel, service and characteristic lookup,
  subscribe, write, scan start and scan stop as entries of the `effects` log. It keeps no transport behaviour.
- The central manager's state is modelled as a `poweredOn` flag that the state-update event sets. The states other
  than powered-on are not told apart, because the plugin treats them all alike.
- `DispatchQueue` and the five-second `asyncAfter` timer are modelled by `DiscoveryTimerFired`, an event the
  environment may raise at any time. Time, the `weak self` capture and the deallocation it guards are not modelled.
- UTF-8 is not modelled. Frames are strings. An incoming payload that is missing or is not valid UTF-8 is `None` and
  is dropped, as the plugin drops it. Encoding a Swift string as UTF-8 never fails, so the `invalidCommand` branches
  after `data(using:)` cannot be taken. They are not modelled.
- `print` logging is left out.
- Bluetooth identifiers (`CBUUID`) are modelled as their 128-bit values, written in the same hexadecimal digits as
  the source's identifier strings; the textual form is not modelled. Peripheral identifiers are modelled as opaque
  strings. Services and characteristics carry a `handle` number to tell apart two with one identifier.
- Swift strings are modelled as sequences of characters. Grapheme clusters and canonical equivalence are not
  modelled. `hasPrefix`, `contains`, `components(separatedBy:)` and string `==` (in `validParameters.contains`,
  `validRegions.contains` and the `switch` over the parameter name) are modelled character by character. Swift's
  `==` also equates canonically equivalent texts: it accepts the region `\u{212A}O`, written with the Kelvin sign,
  as `KO`, where `IsValidParameterValue` refuses it.
- Completion handlers are modelled as non-reentrant: a `Token` cannot call back into the plugin. The plugin calls a
  handler and only then clears its slot (the discovery timer, the parked list request on power loss, and the
  `didUpdateValueFor` and `didWriteValueFor` handlers). A handler that issues the same command again from inside the call therefore has its new registration
  cleared. The model does not capture this.
- Public commands are modelled as atomic with respect to delegate events. In the plugin they run on the caller's
  thread, concurrently with the events on the plugin's queue. Those data races are not modelled.
- The messages of the three added error cases (`InvalidParameter`, `InvalidParameterValue`,
  `ParameterOperationFailed`) are the model's own. The source declares no message for them.
- Errors from the Bluetooth stack are modelled as opaque `TransportError` strings, passed on unchanged.
- `DidUpdateValue`, `DidWriteValue`, `DidDiscoverServices` and `DidDiscoverCharacteristics` take the event's
  peripheral, characteristic or payload as parameters. The model does not check that they belong to the connected
  peripheral, and neither does the plugin.
- ChanelRFIDExample/ChanelRFIDExample/ViewController.swift is not part of this model. It is presentation only.
