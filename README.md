# SIFT device pipeline — a Dafny model

SIFT ("Simple Interface For Things") keeps one picture of the smart-home
devices on a network. Adapters each watch one service: a Connected-by-TCP
lighting gateway, an example HTTP light server, or a Chromecast polled by a
Python script. Each adapter reports full device snapshots. The core modelled
here is the pipeline from those snapshots to the listeners:

- **Change detection** (`Differ`): the all-at-once differ turns each new
  snapshot into `DeviceUpdated` and `DeviceDeleted` events. Component-level
  diffing tells which components to upsert or delete.
- **Arbitration** (`Prioritizer`): per device, a ranked list of the adapters
  that report it. Only the top-ranked adapter's events are forwarded.
- **Notification routing** (`Notif`): listeners register channels with
  filters. Each post reaches the union of the matching, authorized channels
  under the action-mask rule, with a bounded, non-blocking enqueue.
- **Vendor conversions and adapters**:
  - the Connected-by-TCP XML conversion, command-tree walk, login with retry
    and credential keys (`TcpXml`, `TcpAdapter`);
  - the example driver and its in-memory server (`ExampleDriver`,
    `ExampleServer`);
  - the Chromecast driver's line dispatch (`ChromecastDriver`);
  - the Python polling script (`GetUpdates`).
- **IPv4 bookkeeping**:
  - big-endian address increment, description matching with a closed-port
    cache, and IP locking (`Ipv4Scanner`);
  - the service context's alive/killed lifecycle and its per-adapter
    key/value store (`Ipv4Context`).

Shared pieces:

- `Common`: Go's `strconv` integers, byte truncation and string order.
- `SiftTypes`: devices, components and intents.
- `Json`: JSON values, with Go's case-insensitive, last-match-wins binding of
  object members to struct fields.

Anything the system gets from outside is a parameter:

- the network: port answers, gateway replies, HTTP status codes;
- the Chromecast reads;
- fresh identifiers.

## Model

| member | source | states |
|---|---|---|
| Common.ToUint8 | drivers/connectedbytcp/xml.go:215 | the result is a byte congruent to the input modulo 256 (Go's `uint8(int)` keeps the low byte) |
| Common.Atoi | drivers/connectedbytcp/xml.go:178-188 | a parsed value lies in the 64-bit range and comes from a non-empty text starting with a digit or sign; the empty text is an error |
| Common.NatToString | adapter/connectedbytcp/driver.go:381 | the decimal text is non-empty, all digits, and has no leading zero unless the number is 0 |
| Common.AtoiItoa | adapter/connectedbytcp/driver.go:381 | parsing the decimal text of any 64-bit integer gives it back |
| Common.StringLessIrreflexive | lib/prioritizer.go:71 | byte-wise string order is irreflexive |
| Common.StringLessTransitive | lib/prioritizer.go:71 | byte-wise string order is transitive |
| Common.StringLessTotal | lib/prioritizer.go:71 | any two different strings are ordered one way or the other |
| Json.StructMembers | drivers/chromecast/driver.go:139-143 | decoding into a struct succeeds exactly for an object or `null` |
| Json.StringField | drivers/chromecast/driver.go:139-145 | a string field decodes iff every non-null member matching its name case-insensitively is a string; a non-empty result is one of those strings |
| Json.BoolField | drivers/example/server.go:461-465 | a bool field decodes iff every non-null matching member is a boolean |
| Json.U8Field | drivers/example/server.go:461-465 | a `uint8` field decodes iff every non-null matching member is a number in 0..255 |
| Json.MergeObjects | drivers/example/server.go:422-440 | a map field decodes iff every value bound to it is an object or `null`; a final `null` leaves no entries; a final object's members are the last entries |
| Json.MapFieldSingle | drivers/example/server.go:422-440 | a map field bound once decodes to the object's members, or to no entries for `null` |
| Differ.ApplyAllLookup | lib/differ.go:106-132 | after replaying distinct events, a device is unchanged if no event names it, holds the update's state, or is absent after a delete |
| Differ.ReplayReconstructs | lib/differ.go:89-136 | replaying a Consider call's updates and then its deletes on the last-known set gives exactly the new set |
| Differ.ApplyAllAppend | lib/differ.go:125-132 | replaying two event runs one after the other is replaying their concatenation |
| Differ.DiffTraceSnoc | lib/differ.go:89-136 | one more Consider call extends a trace of calls, and its events follow the earlier ones |
| Differ.ReplayTrace | lib/differ.go:89-136 | replaying every event a sequence of Consider calls sent, from the set known before them, gives the last set considered |
| Differ.SameSetTwiceEmitsNothing | lib/differ_test.go:60-71 | the diff of a set against itself has no updates and no deletes |
| Differ.AllAtOnceDiffer.constructor | lib/differ.go:60-66 | a new differ knows no devices, has no output and has sent nothing |
| Differ.AllAtOnceDiffer.SetOutput | lib/differ.go:69-78 | succeeds iff no output was set and the new one is non-nil; only then is the output replaced |
| Differ.AllAtOnceDiffer.Consider | lib/differ.go:89-136 | without an output: nothing sent, state untouched; otherwise it sends exactly the updated ids (new or changed, with the new device) and then exactly the deleted ids, each once, and the last-known set becomes the new set |
| Differ.AllAtOnceDiffer.CollectUpdates | lib/differ.go:106-115 | one update per id that is absent from, or differs from, the last-known set, carrying the new device; the considered ids are removed from the last-known set |
| Differ.AllAtOnceDiffer.CollectDeletes | lib/differ.go:117-122 | one delete per id left in the last-known set, each once |
| Differ.AllAtOnceDiffer.Send | lib/differ.go:125-132 | the events are appended to the output in order |
| Differ.AllAtOnceDiffer.GetLatest | lib/differ.go:140-147 | succeeds iff the id was in the last-considered set, returning that device |
| Differ.CopyMap | lib/differ.go:158-164 | the copy equals the original |
| Differ.DiffComponents | lib/differ.go:166-188 | upserted holds exactly the new or changed components with their new values; deleted holds exactly the vanished ones with their old values |
| Differ.DiffDevice | lib/differ.go:194-198 | the component diff as above; the device counts as changed iff the names differ (`IsOnline` is ignored) |
| Differ.PatchRoundTrip | lib/differ.go:166-188 | removing the deleted keys from the old components and adding the upserted ones gives the new components |
| Differ.DiffAgainstEmpty | lib/differ.go:166-188 | against no old components, everything is upserted and nothing deleted |
| Prioritizer.Less | lib/prioritizer.go:242-261 | the comparator returns the lexicographic order of the less-functions applied in turn |
| Prioritizer.TieBy | lib/prioritizer.go:70-71 | neither-less by type means equal types; by ID, equal IDs |
| Prioritizer.LexLessIrreflexive | lib/prioritizer.go:242-261 | no adapter ranks before itself |
| Prioritizer.LexLessAsymmetric | lib/prioritizer.go:242-261 | two adapters never rank before each other |
| Prioritizer.LexLessNegTransitive | lib/prioritizer.go:242-261 | if a ranks before c, then any b ranks after a or before c |
| Prioritizer.LexLessTransitive | lib/prioritizer.go:242-261 | the order is transitive |
| Prioritizer.DefaultOrderIsByType | lib/prioritizer.go:76-79 | with the default less-functions, a lower controller type ranks first, and only that decides |
| Prioritizer.TypeThenIdIsTotal | lib/prioritizer.go:242-261 | ordering by type and then ID ranks any two distinct adapters |
| Prioritizer.RemoveKeepsOrder | lib/prioritizer.go:176-178 | cutting one adapter out of a ranked, duplicate-free list keeps it ranked, duplicate-free, and holding exactly the others |
| Prioritizer.InsertRanked | lib/prioritizer.go:155-157 | appending and sorting gives a ranked permutation of the list plus the new adapter, still duplicate-free if it was new |
| Prioritizer.FindIndex | lib/prioritizer.go:168-174 | the index of the first occurrence of the adapter, or the length if absent |
| Prioritizer.Prioritizer.constructor | lib/prioritizer.go:76-89 | a missing list of less-functions means the default; nothing is ranked or sent |
| Prioritizer.Prioritizer.Consider | lib/prioritizer.go:103-129 | an empty adapter ID is an error; with an error, no output or an unknown value, nothing changes. An update from an adapter already registered leaves the lists unchanged; otherwise the device's list becomes the old one plus the adapter (as a multiset), other devices' lists untouched; the update is forwarded iff the adapter then heads the list, so a former head's repeated update is always forwarded. A delete removes a registered adapter, keeps the others' order, and is forwarded iff it was first |
| Prioritizer.Prioritizer.Rank | lib/prioritizer.go:118-126 | the update and delete cases of Consider, for a valid adapter ID: a registered adapter's update changes nothing, a new adapter is added to the old list, the update is forwarded iff the adapter heads the list and always when it headed it before |
| Prioritizer.Prioritizer.IsHighestPriorityUpdate | lib/prioritizer.go:131-162 | only this device's list changes; a known adapter leaves the lists unchanged, and a new one is inserted in rank; the result is whether the adapter heads the list, and a former head stays on top |
| Prioritizer.Prioritizer.IsHighestPriorityDelete | lib/prioritizer.go:164-183 | a registered adapter is cut out of the device's list and the result is whether it was first; otherwise nothing changes and the result is false |
| Prioritizer.Prioritizer.GetHighestPriorityAdapterForDevice | lib/prioritizer.go:188-200 | the head's ID, or `""` exactly when the device has no list or an empty one |
| Notif.ParseStr | notif/notif.go:179-186 | `"components"` becomes the empty component filter; any other string is an unhandled filter |
| Notif.MaskStringIsJoin | notif/notif.go:189-204 | the mask's text is its set flag names in the order create, update, delete, moved, joined by two spaces; it is empty iff no flag is set |
| Notif.PaddedIsJoined | notif/notif.go:189-204 | concatenated `" x "` pieces are the names joined by two spaces with one space on each end |
| Notif.AddFilesOnce | notif/components.go:25-51 | a component listener is filed in exactly one index: by ID if non-zero, else by type if non-empty, else unfiltered, with the filter's mask |
| Notif.AddKeepsOthers | notif/components.go:25-51 | filing one channel leaves every other channel's entries unchanged |
| Notif.UnhandledFiltersFileNothing | notif/notif.go:141-152 | filters that are neither component filters nor `"components"` (device filters among them) file nothing |
| Notif.AddDeviceListener | notif/devices.go:24-42 | a non-zero ID files the channel by ID, keeping the rest; otherwise it goes to the unfiltered device index |
| Notif.TypeListenerHearsOnlyItsType | notif/components.go:74-83 | a channel filed only under a type is reached only by components of that type |
| Notif.CatchAllHearsEverything | notif/components.go:94-101 | a catch-all channel with the empty mask is reached by every component post |
| Notif.UnfiledHearsNothing | notif/components.go:57-101 | a channel filed nowhere is never a target |
| Notif.MaskRule | notif/components.go:66-68 | the zero mask wants every action; any other mask wants an action iff some bit is set in both; `Create` wants only `Create` of the four actions, and `Create + Update` wants `Update` but not `Delete` |
| Notif.SharedBitMeets | notif/components.go:68 | a bit set in both masks makes their conjunction non-zero |
| Notif.MeetHasSharedBit | notif/components.go:68 | a non-zero conjunction has a bit set in both masks |
| Notif.CollectMatching | notif/components.go:86-92 | adds exactly the channels whose mask wants the action |
| Notif.Notifier.constructor | notif/notif.go:89-117 | a new notifier has every index, queue and record empty |
| Notif.Notifier.Listen | notif/notif.go:123-155 | a fresh channel whose token, filters and lock are recorded; no filters files it as catch-all with mask 0; otherwise each filter is filed as its resolved form says; device indices untouched |
| Notif.Notifier.Register | notif/notif.go:128-138 | records token, filters, lock and empty queue for a fresh channel, and the catch-all entry when there are no filters |
| Notif.Notifier.FileFilters | notif/notif.go:141-153 | files each filter in turn into the component indices |
| Notif.Notifier.AddComponentListenerTo | notif/components.go:25-51 | the component indices become the listener-added ones |
| Notif.Notifier.AddDeviceListenerTo | notif/devices.go:24-42 | the device indices become the listener-added ones |
| Notif.Notifier.DoPost | notif/notif.go:159-175 | enqueues iff the channel has a lock and is below capacity; otherwise the queues are unchanged |
| Notif.Notifier.MatchingComponentChannels | notif/components.go:57-101 | the union of ID matches, type matches, unfiltered and catch-all channels whose masks want the action |
| Notif.Notifier.MatchingDeviceChannels | notif/devices.go:47-80 | the union of ID matches, unfiltered and catch-all channels whose masks want the action; the by-type device index is not consulted |
| Notif.Notifier.DeliverOne | notif/components.go:113-117 | one more authorized channel gets its notification |
| Notif.Notifier.PostToAuthorized | notif/components.go:106-118 | every matching channel with a recorded, accepted token, and no other, gets the notification once |
| Notif.Notifier.PostComponent | notif/components.go:56-119 | the queues gain `(id, comp, action)` on exactly the authorized matching component channels |
| Notif.Notifier.PostDevice | notif/devices.go:46-98 | the queues gain `(id, dev, action)` on exactly the authorized matching device channels |
| Notif.ListenOn | notif/notif.go:123-126 | a nil notifier gives no channel; otherwise a fresh one |
| TcpXml.XmlDeviceToSiftDevice | drivers/connectedbytcp/xml.go:171-220 | name `"TCP bulb " + Name`, online iff Offline is empty, one light keyed by the DID. Brightness is 0 without Level, without State or with State 0; 1 for Level 0; otherwise Level truncated to a byte. An error iff Level and State are present and State is not an integer, or is non-zero while Level is not |
| TcpXml.BulbRoundTrip | drivers/connectedbytcp/xml.go:171-220 | a bulb described with its level and state converts back to exactly its name, reachability and brightness |
| TcpXml.LevelWrapsAround | drivers/connectedbytcp/xml.go:215 | level 300 reads as brightness 44 |
| TcpAdapter.ConvertedKeys | adapter/connectedbytcp/driver.go:215-219 | the collected map is keyed by `("TCP", DID)` for exactly the walked devices |
| TcpAdapter.ConvertedLastWins | adapter/connectedbytcp/driver.go:219 | a device's entry is the conversion of the last device with that DID |
| TcpAdapter.CollectDevices | adapter/connectedbytcp/driver.go:210-220 | all devices convert and are inserted in order, or the error names one that fails |
| TcpAdapter.CollectRooms | adapter/connectedbytcp/driver.go:209-221 | the same over every room's devices |
| TcpAdapter.CollectGips | adapter/connectedbytcp/driver.go:208-222 | the same over every gip's rooms |
| TcpAdapter.GetDevicesFromServer | adapter/connectedbytcp/driver.go:205-225 | succeeds iff every device under a `RoomGetCarousel` command converts, giving their converted map |
| TcpAdapter.UuidKeyIsNeverTokenKey | adapter/connectedbytcp/driver.go:398-399 | a UUID key never equals a token key |
| TcpAdapter.KeysAreInjective | adapter/connectedbytcp/driver.go:398-399 | each key determines its unique string |
| TcpAdapter.GetUUIDFromContext | adapter/connectedbytcp/driver.go:409-420 | the stored UUID for the context's IP, or `""` |
| TcpAdapter.GetLoginTokenFromContext | adapter/connectedbytcp/driver.go:430-441 | the stored token for the context's IP, or `""` |
| TcpAdapter.SaveUUIDAndTokenToContext | adapter/connectedbytcp/driver.go:443-451 | fails iff the context is dead; otherwise both rows are stored |
| TcpAdapter.LoginContext | adapter/connectedbytcp/driver.go:247-304 | with both values cached, returns the token without contacting the gateway; otherwise succeeds iff the reply has rc `"200"` and a non-empty token on a live context, storing the UUID (kept or fresh) and the token; failure stores nothing |
| TcpAdapter.LoginWRetry | adapter/connectedbytcp/driver.go:228-243 | `numRetries <= 0` gives `("", nil)` without trying. Otherwise at most `numRetries` attempts, all before the last rejected, and success is the first accepted reply; after `numRetries` failures, an error |
| TcpAdapter.FirstAccepted | adapter/connectedbytcp/driver.go:228-243 | the first accepted reply among the first n, every earlier one rejected; n when all n are rejected |
| TcpAdapter.AttemptsAreFirstAccepted | adapter/connectedbytcp/driver.go:228-243 | when the retry loop stops after only rejections, its last attempt is the first accepted reply, or all attempts were rejected |
| TcpAdapter.FlagAndLevel | adapter/connectedbytcp/driver.go:375-381 | the on-flag is `"0"` iff brightness is 0; the level text parses back to the brightness |
| TcpAdapter.GetIPv4Description | adapter/connectedbytcp/driver.go:56-58 | the gateway is identified by port 443 alone |
| TcpAdapter.SetLightCommandIs | adapter/connectedbytcp/driver.go:384-389 | the batch sets the DID's level and then its on-flag, with the token |
| TcpAdapter.Ipv4Adapter.constructor | adapter/connectedbytcp/driver.go:71-85 | the adapter keeps its context |
| TcpAdapter.Ipv4Adapter.EnactIntent | adapter/connectedbytcp/driver.go:355-396 | any intent but a light-emitter intent is rejected with nothing posted; for a light-emitter intent a command is posted iff the login succeeds, it carries the login's token and sets that light's brightness, and its result is the post's; the stored credentials change only as the login saves them |
| TcpAdapter.SetLight | adapter/connectedbytcp/driver.go:365-396 | a command is posted iff the login (cached token, or the first accepted reply within the retries) succeeds; the command carries that token and sets the target's level and flag, and the result is the post's; a failed login posts nothing and fails; the stored credentials change only as the login saves them |
| TcpAdapter.LoggedInToken | adapter/connectedbytcp/driver.go:366-369 | passes iff the login succeeds (the cached token, or the first accepted reply's token), and then yields that token, non-empty; the stored rows become exactly what that login saves |
| TcpAdapter.HandleIPv4 | adapter/connectedbytcp/driver.go:47-52 | no context gives no adapter; otherwise an adapter on that context |
| ExampleDriver.URLsShareHostAndPort | drivers/example/driver.go:260-278 | the URLs are `"http://" + ip + ":" + decimal port` followed by `/status` or `/devices` |
| ExampleDriver.StatusIdentifiesServer | drivers/example/driver.go:280-319 | the example server's status answer passes the driver's identity check |
| ExampleDriver.GetIPv4Description | drivers/example/driver.go:64-66 | the service is identified by the factory's port alone |
| ExampleDriver.IsExampleService | drivers/example/driver.go:306-318 | only a status document that is an object with `type` bound to `"all_at_once"` is accepted; `null` and other values are not |
| ExampleDriver.ConvertLightIgnoresIsOn | drivers/example/driver.go:389-399 | `IsOn` does not affect the result; brightness is `OutputInPercent` |
| ExampleDriver.ConvertComponent | drivers/example/driver.go:379-386 | succeeds exactly for lights, giving their conversion |
| ExampleDriver.SiftDeviceKeepsLights | drivers/example/driver.go:363-377 | the converted device has exactly the light components, under the same keys, converted |
| ExampleDriver.ConvertDevice | drivers/example/driver.go:363-377 | gives the device with the lights kept, empty name, offline |
| ExampleDriver.ParseDevices | drivers/example/driver.go:330-350 | succeeds iff the document is a device map and every device decodes; the result is keyed `("example", key)` with each device converted |
| ExampleDriver.IntentLight | drivers/example/driver.go:202-215 | brightness 0 is off with output 0; 1..99 is on with the same output; 100 and more is on with 100 |
| ExampleDriver.IntentReadsBack | drivers/example/driver.go:202-216 | the light an intent stores on the server reads back as the intent's brightness capped at 100 |
| ExampleDriver.ExampleAdapter.constructor | drivers/example/driver.go:82-99 | the adapter keeps its address, port and differ |
| ExampleDriver.ExampleAdapter.EnactIntent | drivers/example/driver.go:179-217 | posts iff the intent is a light-emitter intent on a latest-known device's light component; the post goes to the component's URL with the intent's light; only a 200 answer succeeds |
| ExampleServer.ComponentFromJson | drivers/example/server.go:442-459 | a decoded component's `Type` tag names its kind; a readable tag other than `"light"` and `"lock"` is an error |
| ExampleServer.DeviceFromJson | drivers/example/server.go:422-440 | a decoded device always has a component map |
| ExampleServer.NullResetsComponents | drivers/example/server.go:422-440 | `Components` bound to an object and then to `null` decodes to an empty component map |
| ExampleServer.LongSMatchesS | drivers/example/server.go:461-465 | the key `iſ_on` (long s) matches the field `is_on` |
| ExampleServer.ComponentsFromMap | drivers/example/server.go:422-440 | succeeds iff every component decodes, keeping the keys |
| ExampleServer.ComponentsRoundTrip | drivers/example/server.go:422-440 | decoding encoded components gives them back |
| ExampleServer.LightFields | drivers/example/server.go:54-65 | a marshalled light binds `is_on`, `output_in_percent` (both omitted when zero) and the `"light"` type tag |
| ExampleServer.LightRoundTrip | drivers/example/server.go:54-65 | marshalling then decoding a light gives it back, the empty light included |
| ExampleServer.LockRoundTrip | drivers/example/server.go:76-85 | marshalling then decoding a lock gives it back |
| ExampleServer.ComponentRoundTrip | drivers/example/server.go:442-459 | every component round-trips |
| ExampleServer.DeviceRoundTrip | drivers/example/server.go:422-440 | every encoding of a device decodes to it; a nil component map comes back empty |
| ExampleServer.GetRouteURLs | drivers/example/server.go:393-399 | same length and order, each URL `prefix + path` |
| ExampleServer.Server.NewServer | drivers/example/server.go:109-118 | a new server has no devices, notifications or listeners |
| ExampleServer.Server.SetDevice | drivers/example/server.go:179-182 | stores the device under its id, others unchanged, one notification |
| ExampleServer.Server.SetComponent | drivers/example/server.go:184-193 | an unknown device is an error with no change; otherwise only that component is replaced, with one notification |
| ExampleServer.Server.RemoveDevice | drivers/example/server.go:195-198 | removes only that id, one notification |
| ExampleServer.Server.ListenForChanges | drivers/example/server.go:200-202 | appends the listener |
| ExampleServer.Server.GetDevice | drivers/example/server.go:235-238 | found iff stored, returning the stored device |
| ExampleServer.Server.GetDeviceHTTP | drivers/example/server.go:240-261 | 400 for an empty id, 404 for an unknown device, otherwise 200 with the device |
| ExampleServer.Server.GetComponentHTTP | drivers/example/server.go:289-316 | 400 without both ids, 404 for a missing device or component, otherwise 200 with the encoded component |
| ExampleServer.Server.SetDeviceHTTP | drivers/example/server.go:263-287 | 400 with no change for an empty id or an undecodable body; otherwise stores the device and answers 303 to `/devices/{id}` |
| ExampleServer.Server.SetComponentHTTP | drivers/example/server.go:318-343 | 400 with no change for a missing id or an undecodable body; otherwise 303 to the component, having replaced it when the device exists |
| Ipv4Context.StoreThenLookup | network/ipv4/ipv4.go:134-156 | after an upsert, the key reads back the value and every other (adapter, key) pair is unchanged |
| Ipv4Context.ServiceContext.BuildContext | network/ipv4/ipv4.go:66-76 | a new context is alive, with no statuses and its channel not closed |
| Ipv4Context.ServiceContext.SendStatus | network/ipv4/ipv4.go:49-61 | fails iff the context is dead; otherwise the status is delivered |
| Ipv4Context.ServiceContext.StoreData | network/ipv4/ipv4.go:99-104 | fails iff dead; otherwise upserts under (adapter name, key) |
| Ipv4Context.ServiceContext.GetData | network/ipv4/ipv4.go:164-169 | fails when dead; otherwise succeeds iff a row exists for (adapter name, key), returning it |
| Ipv4Context.KillContext | network/ipv4/ipv4.go:80-91 | nil-safe; afterwards dead; closes the status channel only if it was alive |
| Ipv4Context.Lifecycle | network/ipv4/ipv4.go:80-91 | built alive, one status delivered, killed twice; afterwards sending, storing and reading all fail |
| Ipv4Context.Segregation | network/ipv4/ipv4.go:171-186 | two adapters storing under the same key each read back their own value |
| Ipv4Scanner.ValueBound | network/ipv4/scanner.go:271-278 | an address of n bytes is below 256^n |
| Ipv4Scanner.CarryStopped | network/ipv4/scanner.go:271-278 | when the carry stops at a byte, the address grew by one |
| Ipv4Scanner.CarryOverflowed | network/ipv4/scanner.go:271-278 | when every byte wrapped, the address wrapped to 0 |
| Ipv4Scanner.IncrementIP | network/ipv4/scanner.go:271-278 | adds one in place as a big-endian number, modulo 256^length |
| Ipv4Scanner.Scanner.NewScanner | network/ipv4/scanner.go:70-90 | no descriptions, no locked IPs, and the listed interfaces other than `lo0` and `tun0` |
| Ipv4Scanner.Scanner.AddDescription | network/ipv4/scanner.go:94-100 | stores the description under the fresh id, leaving the others |
| Ipv4Scanner.Scanner.GetMatchingDescriptions | network/ipv4/scanner.go:188-223 | exactly the descriptions all of whose ports are open, each once; a port dialled twice was open, so closed ports are dialled once |
| Ipv4Scanner.Scanner.Scan | network/ipv4/scanner.go:104-177 | no descriptions: nothing found, nothing locked. Otherwise the found IPs are candidates that were not locked, each with exactly its matching descriptions, every such IP is found, and all found IPs become locked |
| Ipv4Scanner.Scanner.Unlock | network/ipv4/scanner.go:181-186 | removes only that IP from the locked set |
| Ipv4Scanner.Scanner.RefreshInterfaces | network/ipv4/scanner.go:226-268 | a listing error changes nothing; otherwise the interfaces become exactly the listed ones other than `lo0` and `tun0` |
| ChromecastDriver.GetIPv4Description | drivers/chromecast/driver.go:46-48 | the service is identified by ports 8008 and 8009 |
| ChromecastDriver.Dispatch | drivers/chromecast/driver.go:137-177 | processing stops exactly when a line is not JSON, its `Type` does not decode, or the error or update body its type calls for does not decode |
| ChromecastDriver.DecodeMediaPlayer | drivers/chromecast/driver.go:94-97 | a decoded update payload is a media player |
| ChromecastDriver.DecodeUpdate | drivers/chromecast/driver.go:155-160 | a decoded update message carries a media player |
| ChromecastDriver.ConsideredAdvance | drivers/chromecast/driver.go:137-177 | past a line that does not stop, the considered sets grow by that line's snapshot, if any |
| ChromecastDriver.InvalidLineStops | drivers/chromecast/driver.go:139-143 | a line that is not a JSON message stops the loop |
| ChromecastDriver.OnlyUpdatesReachTheDiffer | drivers/chromecast/driver.go:145-176 | a line is considered iff it is an `"update"` that decodes, giving the one-device snapshot `"Chromecast @ ip"`, online, with the player under `"chromecast"`; other types are skipped |
| ChromecastDriver.StopEndsProcessing | drivers/chromecast/driver.go:137-160 | nothing after a stopping line is considered |
| ChromecastDriver.ConsideredAreSnapshots | drivers/chromecast/driver.go:163-175 | every considered set is a one-device Chromecast snapshot |
| ChromecastDriver.ScriptStateDecodes | drivers/chromecast/driver.go:94-97 | the script's state object decodes to its play state, media type and source |
| ChromecastDriver.ScriptPlayerDecodes | drivers/chromecast/driver.go:94-97 | the script's component decodes to the media player of the reading |
| ChromecastDriver.ScriptMakeAndModel | drivers/chromecast/driver.go:94-97 | the script's lower-case `make`/`model` keys bind to `Make`/`Model` |
| ChromecastDriver.ScriptState | drivers/chromecast/driver.go:94-97 | the script's `state` key binds to `State` |
| ChromecastDriver.ScriptUpdateConsidered | drivers/chromecast/driver.go:155-175 | each script update is considered as the snapshot of its reading |
| ChromecastDriver.ScriptErrorSkipped | drivers/chromecast/driver.go:148-154 | a script error message is logged and skipped |
| ChromecastDriver.Snapshots | drivers/chromecast/driver.go:163-175 | one snapshot per successful poll before the first failure |
| ChromecastDriver.ScriptTraceConsidered | drivers/chromecast/driver.go:137-177 | the driver considers exactly one snapshot per successful script poll, in order |
| ChromecastDriver.ChromecastAdapter.NewAdapter | drivers/chromecast/driver.go:62-77 | a fresh differ with the update channel as its output |
| ChromecastDriver.ChromecastAdapter.Serve | drivers/chromecast/driver.go:103-186 | considers exactly the dispatched snapshots in order; the differ's sent events are the old ones followed by each Consider call's diff against the set before it; the differ ends knowing the last set |
| ChromecastDriver.ChromecastAdapter.Feed | drivers/chromecast/driver.go:145-176 | a snapshot line is considered, extending the diff trace and the differ's sent events; any other line changes nothing |
| ChromecastDriver.ChromecastAdapter.ConsiderSnapshot | drivers/chromecast/driver.go:174-175 | the differ sends exactly the diff of the snapshot against the set it knew (updates, then deletes) and then knows exactly the snapshot |
| ChromecastDriver.ChromecastAdapter.EnactIntent | drivers/chromecast/driver.go:193-198 | every intent is rejected |
| GetUpdates.ErrorIsMessage | adapter/chromecast/get_updates.py:26-31 | an error message has type `"error"` and carries its text |
| GetUpdates.UpdateIsMessage | adapter/chromecast/get_updates.py:35-57 | an update message has type `"update"` and the fixed component schema for the IP |
| GetUpdates.WholeNumberIsFloatLiteral | adapter/chromecast/get_updates.py:74-81 | every integer's decimal text is accepted as a float |
| GetUpdates.PaddedSignedLiteralAccepted | adapter/chromecast/get_updates.py:74-81 | a padded, signed scientific literal is accepted |
| GetUpdates.BareFractionAccepted | adapter/chromecast/get_updates.py:74-81 | `.5` and `7.` are accepted |
| GetUpdates.SpecialValueAccepted | adapter/chromecast/get_updates.py:74-81 | `+Inf` is accepted |
| GetUpdates.FloatLiteralsRejected | adapter/chromecast/get_updates.py:74-81 | the empty text, `.`, `1e` and `five` are rejected |
| GetUpdates.ResolveArgs | adapter/chromecast/get_updates.py:67-83 | exits iff the IP is missing (not-enough-params) or the interval is not a float (invalid-arguments); otherwise the IP and the given or default interval |
| GetUpdates.Run | adapter/chromecast/get_updates.py:67-106 | the printed messages and exit code are the script's output, including the uncaught exceptions of the lookup (85-91) and of a non-string exception message (103) |
| GetUpdates.FirstFailure | adapter/chromecast/get_updates.py:93-106 | the index of the first failed poll, all earlier polls succeeding |
| GetUpdates.PollTraceShape | adapter/chromecast/get_updates.py:93-106 | one update per poll before the first failure, then its error and the not-found exit, or, when the exception's message is not a string, no error line and status 1; no exit without a failure |
| GetUpdates.FailureOnPollN | adapter/chromecast/get_updates.py:93-106 | a failure on poll N leaves N-1 updates, one error and the not-found exit; with a non-string message, the N-1 updates and status 1 |
| GetUpdates.PollTraceMessages | adapter/chromecast/get_updates.py:93-106 | every line of the poll loop is an error or an update message |
| GetUpdates.OutputMessages | adapter/chromecast/get_updates.py:66-106 | every line the script prints is an error or an update message |
| GetUpdates.ExitCodes | adapter/chromecast/get_updates.py:13-106 | every exit uses one of the three error codes or status 1, and status 1 (an uncaught exception) happens exactly when the lookup raises or a failed poll's message is not a string; a missing IP prints the usage error and exits -1; a device not found exits -2 |

## Left out

- Goroutines, locks, timers and heartbeats are not modelled. Each operation
  is one atomic step, and the Chromecast heartbeat goroutine is left out.
- Channels are not modelled as such. The differ and prioritizer outputs are
  event sequences. Notification queues are sequences bounded by the channel
  capacity. The listeners' reading side is not modelled.
- Go map iteration order is random. Loops over maps pick keys in an
  arbitrary order, and emitted events are specified per id, not by
  position.
- `sort.Sort` is unstable. The model inserts a new adapter after every
  adapter that does not rank after it. That is one of the orders the sort may
  produce.
- Behaviour for lists longer than 12 adapters is not modelled. At that size
  Go switches sort algorithms, and the model does not follow that switch.
- Prioritizer.Prioritizer.constructor requires a given list of
  less-functions to be non-empty. In the source an empty, non-nil list makes
  the comparator panic on first use.
- `reflect.DeepEqual` is modelled as value equality. The nil-map versus
  empty-map distinction, and the `Stats`/`Specs` pointers of components,
  are always nil here.
- Aliasing of Go map values (`copyMap` and the shared component maps) is
  not modelled: maps are values.
- Logging (log15 calls, `fmt.Printf`) is left out.
- The network is an oracle throughout:
  - TCP dialing, HTTP(S), TLS and the gateway login and command posts;
  - the port answers (`PortOracle`);
  - the gateway replies;
  - fresh UUIDs;
  - HTTP status codes.
- Database connection and SQL errors are not modelled. The credential store
  is a map from (adapter name, key) to value.
- The XML, JSON and HTTP parsers are not modelled. Their outputs are the
  model's inputs: XML structs, JSON values, path variables.
- `Json`: duplicate members of a scalar field are bound last-match-wins,
  and member values other than the field's type are errors. Duplicate
  members bound to a map field merge, and `null` resets it, as Go does.
  Go's merging of duplicate members bound to a struct field is not
  modelled. Key matching folds ASCII case, plus `ſ` to `s` and the Kelvin
  sign to `k`, as Go's `encoding/json` did before Go 1.21; no other
  Unicode folding is modelled.
- ExampleServer.Server.SetComponent and ExampleServer.Server.SetComponentHTTP
  require the stored device to have a component map. In the source a
  device without one makes the assignment panic. Every caller stores
  devices decoded with a non-nil map.
- Ipv4Scanner.Scanner.Scan: subnet enumeration, the concurrent fan-out over
  candidate IPs, and the ContinuousScanner loop are left out. The candidate
  IPs are a parameter and are scanned sequentially. `context.Port` is always
  nil in the source and is not modelled.
- ChromecastDriver.ChromecastAdapter.Serve: starting the Python process,
  pipe and exec errors, and the scanner's read errors are left out. The
  script's lines are its input.
- `MediaPlayer` `Stats`/`Specs` are always nil and are not modelled.
- GetUpdates:
  - device discovery (`pychromecast`) and the reads are oracles: the
    lookup's outcome and the poll results. An uncaught exception ends the
    script with status 1 and Python's traceback on standard error, which
    is not modelled;
  - `time.sleep` is not modelled. A sleep that raises (for instance on a
    negative interval) behaves like a failure of the next poll;
  - float conversion is modelled as the set of literals Python 2's
    `float()` accepts, not as a floating-point value;
  - Python 2 dictionary key order is not modelled; messages are objects
    whose members the decoder binds by name;
  - the exit codes are the script's own values (-1, -2, -3). The operating
    system reports them modulo 256 (255, 254, 253).
- TcpAdapter.LoginWRetry and TcpAdapter.LoginContext: the gateway's XML
  replies are given already parsed. The HTTPS post that fetches them is
  left out.
- Notif.Notifier.Listen requires a valid notifier. The source's nil maps on
  a zero-value notifier are not modelled; `New` initialises every map.
- Some methods are splits of a single source function, so that each loop
  can be proved on its own:
  - Notif.Notifier.Register and Notif.Notifier.FileFilters split `Listen`;
  - Notif.Notifier.DeliverOne and Notif.Notifier.PostToAuthorized split the
    posting loop of `PostComponent` and `PostDevice`;
  - Prioritizer.Prioritizer.Rank is the type switch of `Consider`;
  - TcpAdapter.LoggedInToken is the login step of `setLight`;
  - ChromecastDriver.ChromecastAdapter.Feed is the per-line body of the
    serve loop.
