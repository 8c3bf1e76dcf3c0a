# Wya location sharing — a Dafny model

Wya is an iOS app that shows where the people in a small group are. Locations
travel to nearby devices over a MultipeerConnectivity session. The app also
keeps one CloudKit record, seeded at (0, 0), that can be shared with other
accounts; `update(location:)` would write a coordinate into it, but nothing in
the app calls it. This project models the bookkeeping around that sharing and
proves properties of it:

- `Roster` — the roster kept by `WyaViewModel`. Peer arrivals are upserted by
  name. The device's own location is upserted by the relationship "Me". The
  user adds and deletes entries.
- `CoordinateCodec` — the keyed `Codable` conformance of a coordinate.
- `TimeLabels`, `PersonDetail`, `Decimal` — the relative-time labels ("Now",
  "5m ago", "2 hours ago") and the integer rendering they use.
- `PeerSession` — `MultipeerSession`: the `{"lat","lon"}` payload, the
  guarded send, dropping of malformed payloads, peer-list updates and
  auto-accepted invitations.
- `CloudLocation` — `CloudKitLocationManager` as a state machine over
  `locationRecord` and `share`. Cloud results are parameters.
- `UserSession` — the Apple-ID sign-in state over a string key/value store.
- `Common` — `Option`, `Result`, `Coordinate`, and the decoded-JSON `Value`
  tree.

Modelling choices:

- The wall clock `Date()` is an integer parameter `now`, in whole seconds.
- `UUID()`, `randomColor()` and every CloudKit or MultipeerConnectivity
  outcome are parameters.
- Latitudes and longitudes are `real`. They are only stored, copied and
  compared, never computed with.
- Payloads are modelled at the level of decoded key/value trees.

The code has no timestamp comparison. Every peer arrival overwrites the entry
it finds and stamps it with the local clock. The code has no
last-write-wins by timestamp, zone provisioning, contention retry, share
reuse or polling, and the model has none either:
`Roster.ArrivalAlwaysOverwrites` shows that an entry's time can go
backwards. Likewise, the sensor callback sends the
device's location to nearby peers only. It never calls
`CloudKitLocationManager.update`.

## Model

| member | source | states |
|---|---|---|
| `CoordinateCodec.Encode` | Wya/ContentView.swift:65-69 | the container holds exactly the keys "latitude" and "longitude", each holding the matching coordinate as a number |
| `CoordinateCodec.DecodeDouble` | Wya/ContentView.swift:73-74 | a keyed read succeeds iff the key is present and holds a number; a failure names the key |
| `CoordinateCodec.Decode` | Wya/ContentView.swift:71-76 | decoding succeeds iff the value is an object with numbers under both keys; a missing latitude is reported before a missing longitude |
| `CoordinateCodec.DecodeEncode` | Wya/ContentView.swift:60-77 | decoding what `encode` wrote gives the same coordinate |
| `CoordinateCodec.EncodeDecode` | Wya/ContentView.swift:60-77 | a container that decodes contains the encoding of the decoded coordinate |
| `CoordinateCodec.DecodeIgnoresOtherKeys` | Wya/ContentView.swift:71-76 | entries under other keys do not affect decoding |
| `Roster.NewPerson` | Wya/ContentView.swift:23-31 | a new person is active and stamped with the construction time |
| `Roster.FirstMatch` | Wya/ContentView.swift:106 | `firstIndex(where:)`: the index found matches and no earlier entry does; `None` means no entry matches |
| `Roster.Upsert` | Wya/ContentView.swift:105-125 | when a match exists, only the first matching entry changes, and only in location and time; otherwise exactly the new entry is appended |
| `Roster.UpsertFindsEntry` | Wya/ContentView.swift:105-125 | after an upsert, the first entry with the key holds the new coordinate and time |
| `Roster.UpsertIdempotent` | Wya/ContentView.swift:105-125 | applying the same arrival twice equals applying it once |
| `Roster.UpdatePerson` | Wya/ContentView.swift:105-114 | a known name changes only location and time of its first entry; an unknown name appends one "Friend" entry with the peer emoji, active, at the coordinate; the roster never shrinks and grows by at most one |
| `Roster.ArrivalAlwaysOverwrites` | Wya/ContentView.swift:105-108 | an arrival with an earlier time still overwrites: no timestamp is compared |
| `Roster.LaterArrivalWins` | Wya/ContentView.swift:105-108 | of two arrivals for one name, the later call decides location and time |
| `Roster.DidUpdateLocations` | Wya/ContentView.swift:116-128 | an empty batch changes nothing and sends nothing; otherwise the last sample becomes the map centre and the value sent to peers; the first "Me" entry gets that location and the current time with every other field and entry unchanged, or, when there is none, exactly one new "Me" entry (name "Me", the self emoji and green colour, active) is appended |
| `Roster.OnlyLastSampleCounts` | Wya/ContentView.swift:117-118 | earlier samples in a batch have no effect |
| `Roster.FirstSampleAddsSelf` | Wya/ContentView.swift:122-124 | with no "Me" entry, the sensor appends one named "Me" with relationship "Me", the standing-person emoji and the fixed green colour |
| `Roster.AddPerson` | Wya/ContentView.swift:136-138 | the person goes at the end and the rest is unchanged |
| `Roster.RemoveId` | Wya/ContentView.swift:141 | no entry with the id survives and the result is no longer than the input |
| `Roster.RemoveIdCounts` | Wya/ContentView.swift:141 | every entry with another id keeps its number of occurrences; entries with the id have none |
| `Roster.DeletePerson` | Wya/ContentView.swift:140-142 | every entry with the person's id is removed and all others are kept |
| `Roster.RemoveIdDistributes` | Wya/ContentView.swift:141 | removal distributes over concatenation, so survivors stay in order |
| `Roster.DeleteUndoesAdd` | Wya/ContentView.swift:136-142 | deleting a person just added gives the same roster as deleting it from the original |
| `Roster.DeleteIdempotent` | Wya/ContentView.swift:140-142 | deleting twice equals deleting once |
| `Roster.ReceiveDelivery` | Wya/ContentView.swift:100-102 | no delivery leaves the state unchanged; a delivery keeps the map centre and performs exactly the arrival `updatePerson` makes under the peer's display name, after which the first entry with that name holds the coordinate |
| `Roster.MalformedPayloadLeavesRoster` | Wya/MultipeerSession.swift:45-53 | a payload that does not decode leaves the roster unchanged |
| `Roster.SampleReachesPeerRoster` | Wya/ContentView.swift:100-127 | a sensor sample sent by one device ends up in the receiving device's roster under the sender's name |
| `Roster.PeerNamedMeHitsSelfEntry` | Wya/ContentView.swift:100-127 | a nearby device whose display name is "Me" overwrites the coordinate of the self entry |
| `Decimal.Show` | Wya/ContentView.swift:394 | `"\(n)"` is a non-empty string of digits with no leading zero, and starts with '0' only for zero |
| `Decimal.ParseShow` | Wya/ContentView.swift:394 | parsing a rendering gives the number back |
| `Decimal.ShowParse` | Wya/ContentView.swift:394 | rendering a parsed number gives the string back |
| `Decimal.ShowInjective` | Wya/ContentView.swift:394 | different numbers render differently |
| `TimeLabels.Classify` | Wya/ContentView.swift:501-510 | below 60 is recent; 60 to 3599 gives the floor of minutes, between 1 and 59; 3600 and above gives the floor of hours, at least 1 |
| `TimeLabels.ParseRender` | Wya/ContentView.swift:389-398 | a label parses back to its bucket and count |
| `TimeLabels.RenderParse` | Wya/ContentView.swift:501-510 | every string the label parser accepts is the label of the bucket it yields |
| `TimeLabels.LabelDeterminesBucket` | Wya/ContentView.swift:389-398 | two intervals have the same label iff they have the same bucket and count |
| `TimeLabels.ClassifyMonotone` | Wya/ContentView.swift:501-510 | as the interval grows the bucket never goes back, and counts never decrease |
| `TimeLabels.CardTimeAgo` | Wya/ContentView.swift:389-398 | the card label parses back to the interval's bucket, and is "Now" iff the interval is below 60 |
| `TimeLabels.CardTimeAgoBuckets` | Wya/ContentView.swift:391-397 | the card label is "Now", then N + "m ago", then N + "h ago" |
| `TimeLabels.RowTimeAgo` | Wya/ContentView.swift:501-510 | the row label parses back to the interval's bucket, and is "just now" iff the interval is below 60 |
| `TimeLabels.RowTimeAgoBuckets` | Wya/ContentView.swift:503-509 | the row label is "just now", then N + " minutes ago", then N + " hours ago" |
| `PersonDetail.TimeAgo` | Wya/PersonDetailView.swift:127-136 | the detail label parses back to the interval's bucket, and is "just now" iff the interval is below 60 |
| `PersonDetail.TimeAgoBuckets` | Wya/PersonDetailView.swift:128-134 | below 60 (negative included) is "just now"; minutes count 1..59; hours count at least 1 |
| `PersonDetail.NoSingularForm` | Wya/PersonDetailView.swift:131-134 | exactly 60 s gives "1 minutes ago" and exactly 3600 s gives "1 hours ago" |
| `PersonDetail.TimeAgoMonotone` | Wya/PersonDetailView.swift:128-135 | as time passes the label goes from "just now" to minutes to hours and never back |
| `PeerSession.LocationPayload` | Wya/MultipeerSession.swift:31 | the payload has exactly the keys "lat" and "lon", holding the coordinate |
| `PeerSession.Send` | Wya/MultipeerSession.swift:29-35 | something is sent iff peers are connected and serialisation succeeds; it goes reliably to all connected peers and decodes back to the coordinate; no error is returned |
| `PeerSession.AsNumberMap` | Wya/MultipeerSession.swift:46 | the cast succeeds iff the value is an object whose values are all numbers, keeping every key |
| `PeerSession.DecodeLocation` | Wya/MultipeerSession.swift:46-48 | a coordinate comes out iff the data is a string-to-number object with both "lat" and "lon"; it holds those two numbers |
| `PeerSession.Handle` | Wya/MultipeerSession.swift:39-62 | a state change replaces the peer list and delivers nothing; received data changes no state and is delivered with the sender's id iff it decodes; every invitation is accepted |
| `PeerSession.SendThenReceive` | Wya/MultipeerSession.swift:29-53 | a sent coordinate is delivered unchanged with the sender's id |
| `PeerSession.MissingKeyIsDropped` | Wya/MultipeerSession.swift:46-47 | a payload without "lat" or "lon" yields no delivery and no change |
| `PeerSession.NonNumericEntryIsDropped` | Wya/MultipeerSession.swift:46-47 | one non-numeric value under any key drops the whole payload |
| `PeerSession.ExtraNumberIsIgnored` | Wya/MultipeerSession.swift:46-47 | an extra numeric entry does not change the result |
| `CloudLocation.Start` | Wya/CloudKitLocationManager.swift:16-21 | a new manager holds neither record nor share and issues the fetch of "MyLocation" |
| `CloudLocation.OnFetched` | Wya/CloudKitLocationManager.swift:21-28 | a fetched record is kept; without one, whatever the error, the seed record is saved |
| `CloudLocation.OnSeedSaved` | Wya/CloudKitLocationManager.swift:28-30 | the record becomes the save's result, nil when the save failed |
| `CloudLocation.ProvisionOutcome` | Wya/CloudKitLocationManager.swift:19-33 | a record is held iff the fetch or the save returned one; the seed is a "Location" record "MyLocation" at (0, 0); the fetch error plays no part |
| `CloudLocation.Update` | Wya/CloudKitLocationManager.swift:35-40 | without a record nothing happens; otherwise the record takes the coordinate, keeps its id and type, and one save is issued |
| `CloudLocation.UpdateLastWins` | Wya/CloudKitLocationManager.swift:35-40 | two updates leave the record at the second coordinate |
| `CloudLocation.UpdateBeforeProvisioningIsLost` | Wya/CloudKitLocationManager.swift:35-36 | an update before the record arrives does nothing |
| `CloudLocation.CreateShare` | Wya/CloudKitLocationManager.swift:42-46 | with no record it completes with nil at once; otherwise it issues one modify of the record and a new share rooted at it, titled "Wya Location" |
| `CloudLocation.OnModified` | Wya/CloudKitLocationManager.swift:47-54 | success stores and returns the new share; an error returns nil and leaves the state unchanged |
| `CloudLocation.CreateShareRun` | Wya/CloudKitLocationManager.swift:42-56 | a whole call never changes the record; on success the held share is the new one, on error nothing changes |
| `CloudLocation.EachCreateShareMakesANewShare` | Wya/CloudKitLocationManager.swift:42-56 | a second call replaces the held share with a new one; a failed second call is not retried and leaves the first share |
| `CloudLocation.AcceptShare` | Wya/CloudKitLocationManager.swift:58-62 | the acceptance reports true iff the platform returned no error, and the manager's state is unchanged |
| `UserSession.Init` | Wya/UserSession.swift:15-19 | signed in iff "appleUserID" is stored; the name is the stored "appleUserName" |
| `UserSession.UserId` | Wya/UserSession.swift:11-13 | the user id is whatever is stored under "appleUserID" |
| `UserSession.JoinName` | Wya/UserSession.swift:30-32 | both names give "G F", one gives that one, neither gives "" |
| `UserSession.HandleAuthorization` | Wya/UserSession.swift:25-41 | an Apple-ID credential stores id and name, publishes the name, signs in, keeps other keys and requests the profile save; any other credential or a failure changes nothing |
| `UserSession.SignOut` | Wya/UserSession.swift:43-48 | both keys are removed, other keys kept, the user is signed out with no name, and the user id is nil |
| `UserSession.SignOutIdempotent` | Wya/UserSession.swift:43-48 | signing out twice equals signing out once |
| `UserSession.ConsistencyPreserved` | Wya/UserSession.swift:15-48 | every operation keeps the published flags equal to what is stored |
| `UserSession.RelaunchRestoresSession` | Wya/UserSession.swift:15-48 | rebuilding the session from the store after any operation gives the same state |

## Left out

- SwiftUI views, layout, sheets, animations and the map: presentation only.
- Map zoom clamps and `centerOnPerson`: floating-point span arithmetic for the UI.
- `randomColor()` and the random jitter of added people: they are nondeterministic, so the colour is a parameter.
- CoreLocation, MultipeerConnectivity and CloudKit themselves. Their results are parameters: the samples, the session's peer list, serialisation success, fetched and saved records, and errors.
- The bytes of JSON payloads. A payload is its decoded `Value` tree, or `None` when the bytes are not JSON.
- JSON booleans: the value tree has no boolean, so Foundation's rule for casting a boolean to `Double` is not modelled.
- Non-finite doubles: given NaN or infinity, `JSONSerialization` raises an Objective-C exception that the `try?` in Wya/MultipeerSession.swift:32 cannot catch, so the app crashes. This crash is not modelled; the `serializes` parameter stands only for a thrown Swift error, after which nothing is sent.
- Numeric precision of received payloads: `as? [String: Double]` refuses integers a `Double` cannot represent exactly, while the model's `Number(real)` accepts every number, so such a payload is dropped by the app but decoded by the model.
- Unicode equivalence of names: the roster finds entries by comparing names and relationships as sequences of code points, whereas Swift's `String ==` uses canonical equivalence. A peer named "Ame\u{301}lie" would update an entry named "Amélie" in the app but be appended as a new entry in the model.
- Fractions of a second: intervals are whole seconds. `Int(interval / 60)` truncates, which for the positive intervals where it is used equals the floor taken here.
- `Int(...)` trapping on doubles too large for `Int`: not modelled.
- CloudLocation.Update: the record is a value here. In the app it is a shared `CKRecord` object, so an update also changes the record inside a modify operation that is still in flight.
- Threading: the `DispatchQueue.main` hops and the timing of completion handlers. Each completion is a separate step that may be applied in any order.
- `startSignInWithAppleFlow`: it only sets the requested scopes on a platform request.
- `browserViewController` and its dismissal callbacks: UI.
- The print in the authorization failure branch: logging only.
- `CloudKitUserDataManager`: a thin wrapper over CloudKit and `JSONEncoder`. Its `save` call after sign-in is recorded as a `ProfileSave` request, but the save itself is not part of this model.
- The invite screens: UI. They call `prepareShare` and a two-argument `createShare`, which the manager does not define.
- The root screen: UI. It calls a `ContentView(session:)` initialiser that the app does not define.
- The settings screen: UI only.
