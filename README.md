# stream-api, modelled in Dafny

This project models the state bookkeeping of the voc stream-api services and of the monitor dashboard's store, and proves properties of it. Each Go service or JS file of the core is one Dafny module. Code that changes state step by step is modelled as classes whose methods change their fields, with loops and their invariants. Code that only computes is modelled as functions. Each method is proved against a specification function, and lemmas prove what the service promises about that function.

- **Dashboard** (`dashboard.dfy`): the Redux store of the monitor frontend.
  - The initial state and the action creators are modelled.
  - The reducer is a total function over a JS object, written as a map from keys to JSON-like values. It returns a `TypeError` where JavaScript would throw.
  - The socket handlers decode a frame and dispatch the result. `UPDATE_STATE` does a shallow, top-level replace and never keeps a `type` field.
  - `UPDATED_STREAM_SETTINGS` rebuilds `streamSettings` from slug to item, and the last item wins on a duplicate slug.
  - Object spread of a string, an array, `null` or a number is modelled as JavaScript does it. A text frame that is not JSON is spread character by character under the keys "0", "1", and so on.
- **ClientPath** (`clientpath.dfy`) and **GoStrings** (`gostrings.dfy`): the key grammar of the configuration store (`/service/<name>/…`, `/stream/<name>`, `/stream/<name>/transcoder`, `/stream/<name>/settings`). It rests on models of the Go string and path functions the services use: `strings.Split`, `strings.Join`, `path.Clean`, `path.Base` and `filepath.Ext`. Four keys round-trip through their parsers: the service key (`ParseServicePath`), the stream key (`ParseStreamPath`), the stream-transcoder key (`ParseStreamTranscoderPath`) and the stream-settings key (`AuthWatch.ParseStreamSettingsPath`).
- **Watch** (`consulwatch.dfy`): the Consul watch handler's cache diff.
  - A listing produces a put for every new or changed key, then a delete for every key that vanished.
  - Afterwards the cache equals the listing.
  - Replaying the same listing produces no events.
- **Hls**, **Keeps** (`hls.dfy`, `keep.dfy`): the upload server's HLS handling.
  - The live-playlist window slides over the last `size` segments while the media sequence counts the segments dropped.
  - Discontinuity detection and the copying of new variant items are modelled.
  - The master-playlist filters, HD removal and alternative languages, are modelled.
  - A segment is kept while its keep channel is open.
- **UploadStream**, **FileRegistry**, **UploadRegistry** (`upload_stream.dfy`, `file_registry.dfy`, `registry.dfy`): the lifecycle tables of the upload server. These are origin handover, TTL ageing and expiry of streams, file deadlines with keep channels, and the per-stream file registry. Time is an integer count of nanoseconds.
- **UploadAuth**, **LimitReads**, **UploadProxy** (`upload_auth.dfy`, `limit_reader.dfy`, `proxy.dfy`):
  - the static directory authorisation;
  - the bounded reader;
  - the upload proxy's URL joining, request deadlines, the drop-oldest sink queue and the broadcast to every sink.
- **SegmentQuality**, **ViewerCount**, **UserAgent** (`logreceiver_hls.dfy`, `viewers.dfy`, `useragent.dfy`): the log receiver.
  - A segment URI maps to a quality.
  - A master playlist URL maps to a slug.
  - Viewers are counted in a sliding window, and the maximum quality is found.
  - User agents are classified, and the first matching rule wins.
- **Transcode** (`transcode.dfy`): the transcoder's load ordering and its claim rule.
  - The load ratio comparison is done by integer cross-multiplication, and this is proved equivalent to comparing the exact ratios.
  - The transcoder's maps of transcoders, streams and stream-to-transcoder assignments are modelled.
- **MonitorWatch**, **MonitorServe**, **GoMaps**, **WatchEvents** (`monitor_watcher.dfy`, `monitor_server.dfy`, `gomaps.dfy`, `watch_event.dfy`): the monitor.
  - The watcher keeps four maps and sends a snapshot copy of the map it changed.
  - The server merges updates key by key into its state and broadcasts to its clients.
  - Forwarding the watcher's updates to the server rebuilds the watcher's maps in the server's state.
- **AuthWatch** (`auth_watcher.dfy`): the stream-settings cache and the publish-password check.
- **Publish**, **Icecast** (`publisher.dfy`, `icecast.dfy`): the publisher's stream cache and lease handling, and the Icecast status decoding, which accepts either one source or a list of sources.

## Behaviour worth knowing

These are properties the model proves about the code as written.

- `ByLoad.Less` (transcode/status.go:15-24) is not a strict weak ordering when transcoders with and without capacity are mixed. `Transcode.LessCycle` exhibits three statuses, each less loaded than the next. When all capacities are positive, or none is, the order is transitive, and the claim goes to a least-loaded transcoder (`Transcode.ClaimGoesToLeastLoaded`).
- `StaticAuth.Auth` (upload/auth.go:77-90) strips an allowed directory as a plain string prefix, with no element boundary. With `/upload` allowed, `/uploadfoo/x` resolves to `/foo/x` (`UploadAuth.PrefixWithoutBoundary`).
- `StreamSettingsPath` builds `/streamSettings/<name>`, but `PathIsStreamSettings` checks a different shape (client/path.go:62-84), so that key is never recognised (`ClientPath.StreamSettingsPathNotRecognised`).
- When one update to the publisher lists the same slug twice, it publishes that slug twice, and the second lease is the one kept (`Publish.DuplicateSlugPublishedTwice`).
- The second-origin test in upload/stream_store_test.go:27-43 expects a new origin to be accepted 150 ms after the first. With the default origin duration of six seconds, the code refuses it. The model follows the code, and `UploadStream.SecondOriginScenario` states what it returns.
- A live playlist with a negative size is never trimmed (`Hls.NegativeSizeGrows`).

## Model

| member | source | states |
|---|---|---|
| Dashboard.InitialState | monitor/frontend/src/redux/reducer.js:3-10 | the initial store holds exactly the five entity maps, all empty, and socketConnected false; it has no `type` property |
| Dashboard.Spread | monitor/frontend/src/redux/reducer.js:16-19 | what object spread copies: an object's own fields, a string's characters or an array's elements under their decimal indices, and nothing for null, booleans and numbers |
| Dashboard.UpdateStateAction | monitor/frontend/src/redux/actions.js:3-8 | the action's keys are `type` plus every spread key of the update, each with the update's value; `type` is UPDATE_STATE unless the update brings its own |
| Dashboard.SocketConnectedAction | monitor/frontend/src/redux/actions.js:14 | the action has the single key `type`, equal to SOCKET_CONNECTED |
| Dashboard.SocketDisconnectedAction | monitor/frontend/src/redux/actions.js:15 | the action has the single key `type`, equal to SOCKET_DISCONNECTED |
| Dashboard.ActionTypesDistinct | monitor/frontend/src/redux/actions.js:1-12 | the action type constants the reducer switches on are pairwise distinct |
| Dashboard.SettingsBySlug | monitor/frontend/src/redux/reducer.js:21-24 | the forEach fails exactly when an item is null; otherwise the new map's keys are exactly the items' slug keys |
| Dashboard.SettingsLastWins | monitor/frontend/src/redux/reducer.js:22-24 | each slug's entry is the last item filed under that slug |
| Dashboard.Reduce | monitor/frontend/src/redux/reducer.js:12-42 | UPDATE_STATE replaces every key the action carries except `type` and keeps the others; UPDATED_STREAM_SETTINGS replaces only streamSettings, and throws unless `settings` is an array without null items; the two socket actions set only the flag; any other action returns the state unchanged |
| Dashboard.NoTypeKey | monitor/frontend/src/redux/reducer.js:15-19 | a state without a `type` property never gains one through the reducer |
| Dashboard.ConnectedIdempotent | monitor/frontend/src/redux/reducer.js:29-33 | SOCKET_CONNECTED applied twice gives the same state as applied once |
| Dashboard.ReconnectKeepsEntities | monitor/frontend/src/redux/reducer.js:29-38 | a disconnect followed by a connect leaves every other key as it was and the flag true |
| Dashboard.Cam1Scenario | monitor/frontend/src/redux/reducer.js:14-19 | a pushed `streams` object over the initial store replaces streams and keeps the other defaults |
| Dashboard.MessageAction | monitor/frontend/src/app.jsx:18-29 | a non-string frame dispatches nothing; parsed JSON is dispatched through updateState; a frame that fails to parse is dispatched as the raw string |
| Dashboard.Store.constructor | monitor/frontend/src/redux/reducer.js:3-12 | the store starts in the initial state |
| Dashboard.Store.Dispatch | monitor/frontend/src/redux/reducer.js:12-42 | the new state is the reducer's result; a throwing reducer leaves the state unchanged |
| Dashboard.Store.OnMessage | monitor/frontend/src/app.jsx:18-29 | a non-string frame leaves the store unchanged; otherwise the store takes the reducer's result for the decoded action |
| Dashboard.Store.OnConnect | monitor/frontend/src/app.jsx:30 | the connect event sets only the flag, to true |
| Dashboard.Store.OnDisconnect | monitor/frontend/src/app.jsx:31 | the disconnect event sets only the flag, to false |
| Dashboard.PushedFragmentReplaces | monitor/frontend/src/app.jsx:22-28 | a pushed JSON object without `type` is merged into the state key by key |
| Dashboard.UnparsableFrameMergesCharacters | monitor/frontend/src/app.jsx:22-28 | a frame that is not JSON is still dispatched, and adds its character indices as keys |
| Dashboard.PushedTypeOverrides | monitor/frontend/src/redux/actions.js:5-6 | a pushed object whose `type` is SOCKET_CONNECTED is reduced as that action |
| ClientPath.ParseServiceName | client/path.go:19-26 | the result never holds a slash; it is "" unless the key has exactly three slashes, and otherwise the key ends with "/" and the result |
| ClientPath.ParseStreamTranscoder | client/path.go:37-44 | the fourth split element of a four-element key, else ""; `ParseStreamTranscoderPath` shows that on a stream-transcoder key it yields "transcoder", not the slug |
| ClientPath.ParseStreamName | client/path.go:28-35 | the result never holds a slash; "" for a key with fewer than two slashes, else the third split element |
| ClientPath.PathIsStream | client/path.go:46-52 | defines the stream-key test (three split elements, the second "stream"); `PathIsStreamShape` proves the key shape it accepts |
| ClientPath.PathIsStreamShape | client/path.go:46-52 | PathIsStream holds iff the key is "/stream/" followed by a slash-free slug |
| ClientPath.PathIsStreamTranscoderShape | client/path.go:54-60 | PathIsStreamTranscoder holds iff the key is "/stream/", a slash-free slug and "/transcoder" |
| ClientPath.PathIsStreamSettingsShape | client/path.go:62-68 | PathIsStreamSettings holds iff the key is "/stream/", a slash-free slug and "/settings" |
| ClientPath.StreamKindsExclusive | client/path.go:46-68 | no key is of two of the three stream kinds |
| ClientPath.ServicePath | client/path.go:70-72 | path.Join of the service root and both names; `ServicePathOfNames` and `ParseServicePath` prove its shape and round trip |
| ClientPath.ServicePathOfNames | client/path.go:70-72 | for plain names the service key is "/service/" + service + "/" + client |
| ClientPath.StreamPath | client/path.go:74-76 | path.Join of the stream root and the name; `StreamPathOfName` and `ParseStreamPath` prove its shape and round trip |
| ClientPath.StreamPathOfName | client/path.go:74-76 | for a plain name the stream key is "/stream/" + name |
| ClientPath.StreamTranscoderPath | client/path.go:78-80 | path.Join of the stream root, the name and "transcoder"; `StreamTranscoderPathOfName` and `ParseStreamTranscoderPath` prove its shape and round trip |
| ClientPath.StreamTranscoderPathOfName | client/path.go:78-80 | for a plain name the key is "/stream/" + name + "/transcoder" |
| ClientPath.StreamSettingsPath | client/path.go:82-84 | path.Join of the stream-settings root and the name; `StreamSettingsPathOfName` proves its shape and `StreamSettingsPathNotRecognised` that PathIsStreamSettings rejects it |
| ClientPath.StreamSettingsPathOfName | client/path.go:82-84 | for a plain name the key is "/streamSettings/" + name |
| ClientPath.ServicePrefix | client/path.go:86-88 | path.Join of the service root and the name; `ServicePrefixOfName` proves its shape |
| ClientPath.ServicePrefixOfName | client/path.go:86-88 | for a plain name the prefix is "/service/" + name |
| ClientPath.ParseServiceKey | client/path.go:19-26 | the client name comes back out of "/service/s/c" |
| ClientPath.ParseServicePath | client/path.go:19-72 | ParseServiceName(ServicePath(s, c)) == c for plain names |
| ClientPath.ParseStreamPath | client/path.go:28-76 | StreamPath(n) is recognised as a stream key, and ParseStreamName gives n back |
| ClientPath.ParseStreamTranscoderPath | client/path.go:28-80 | StreamTranscoderPath(n) is recognised as a stream-transcoder key and not as a stream key; ParseStreamName gives n back |
| ClientPath.StreamSettingsPathNotRecognised | client/path.go:14-84 | PathIsStreamSettings rejects every key StreamSettingsPath builds |
| Watch.HandlePair | client/consul.go:146-152 | a nil pair sends nothing; any other pair is sent as a one-event put batch |
| Watch.ConsulWatch.constructor | client/consul.go:143 | the cache starts empty |
| Watch.ConsulWatch.HandlePairs | client/consul.go:153-189 | the batch is the puts of the listing followed by a delete for each cached key the listing misses; the cache becomes the absorbed listing restricted to the listed keys |
| Watch.ConsulWatch.RecordPairs | client/consul.go:159-177 | new or changed pairs become puts and enter the cache, and every listed key leaves the expected list |
| Watch.ConsulWatch.DropKeys | client/consul.go:179-188 | one delete per key left expected, in order, and exactly those keys leave the cache |
| Watch.RemoveKey | client/consul.go:160-165 | the first occurrence of the key is cut out of a list without repetitions, which removes it altogether |
| Watch.PutsOfPairs | client/consul.go:166-176 | at most one put per listed pair, and every put carries a listed pair |
| Watch.PutsBeforeDeletes | client/consul.go:159-189 | in an emitted batch no put follows a delete |
| Watch.AbsorbUnlisted | client/consul.go:159-177 | a key the listing does not mention keeps its cached value |
| Watch.AbsorbLastWins | client/consul.go:176 | the cache holds the value of the last pair listed for a key |
| Watch.ListingDefinesCache | client/consul.go:153-188 | after a listing the cache holds exactly the listed keys, each with its last listed value |
| Watch.PutsQuiet | client/consul.go:167-170 | a listing that repeats what the cache holds emits no put |
| Watch.ReplayIsQuiet | client/consul.go:153-189 | handling the same listing twice emits nothing the second time and leaves the cache as it was |
| Hls.Push | upload/hls.go:308-321 | defines one append to the live window; `PushFacts` proves what leaves and what the counters become |
| Hls.PushFacts | upload/hls.go:308-321 | the appended item is last; below capacity nothing leaves; at capacity exactly the first item leaves and is returned; the window never exceeds its capacity |
| Hls.WindowIsSuffix | upload/hls.go:308-321 | after any history of appends the window is the last `size` items, and the counters count the segments and discontinuities evicted |
| Hls.NegativeSizeGrows | upload/hls.go:309 | a playlist of negative capacity never evicts |
| Hls.AppendScenario | upload/hls_test.go:100-110 | capacity 3, a discontinuity and three segments: discontinuity sequence 1 and sequence 0; one more segment: sequence 1 |
| Hls.AppendScenarioOnPlaylist | upload/hls_test.go:100-110 | the same history replayed through the LivePlaylist methods gives the same counters |
| Hls.LivePlaylist.constructor | upload/hls.go:294-305 | a new playlist of the given capacity is empty, with both counters at zero |
| Hls.LivePlaylist.Append | upload/hls.go:308-321 | the new window and the returned item are those of one append |
| Hls.LivePlaylist.ApplyDiscontinuity | upload/hls.go:324-326 | appends a discontinuity item |
| Hls.LivePlaylist.SetSegmentTarget | upload/hls.go:328-330 | sets the target duration and leaves the window alone |
| Hls.VariantPlaylist.constructor | upload/hls.go:192-194 | a new tracker has its counters at zero and a fresh empty output playlist |
| Hls.HLSParser.constructor | upload/hls.go:44-55 | a new parser tracks no playlists and no files |
| Hls.HLSParser.KeepFile | upload/hls.go:244-249 | a new keep channel guards the segment's path, nothing is closed, and the file registry records the path with that open channel, so the registry keeps every path the parser tracks |
| Hls.HLSParser.ExpireFile | upload/hls.go:252-258 | the path's channel, if tracked, is closed and forgotten; an untracked path changes nothing |
| Hls.HLSParser.Cleanup | upload/hls.go:57-62 | every tracked channel is closed and the file map emptied |
| Hls.TrackedSegmentsStay | upload/hls.go:244-249 | a segment the parser still tracks survives every expiry pass of the file registry unchanged, because its keep channel is open |
| Hls.HLSParser.GetVariantPlaylist | upload/hls.go:184-198 | a playlist outside the base directory is an error; otherwise the tracker for its base name, created empty on first use, so at most one per name |
| Hls.HLSParser.CheckDiscontinuity | upload/hls.go:201-219 | a sequence that went backwards appends a discontinuity, resets lastIndex to 0 and, for an evicted segment, closes its tracked keep channel and forgets its path (one `Step` of a discontinuity item); otherwise the window, the files, the channels and the registry are unchanged and lastIndex moves by diff only when diff is negative; lastSequence and lastSize follow the source |
| Hls.HLSParser.AppendItems | upload/hls.go:222-241 | the window, the tracked files, the channels made and closed, and the registry's entries are those of `Track` over the source segments at or past lastIndex, and lastIndex becomes the source's segment count |
| Hls.HLSParser.CopyFrom | upload/hls.go:223-239 | the loop copies exactly the segments at or past `from`: window, files, channels and registry become `Track` of them, and it counts all segments |
| Hls.HLSParser.VisitItem | upload/hls.go:225-238 | one loop iteration: a segment past `from` is copied, so window, files, channels and registry advance by one `Step`, and every segment moves the index on |
| Hls.HLSParser.CopySegment | upload/hls.go:230-237 | window, files, channels and registry after one `Step`: the segment's path gets a new keep channel and a registry entry, it is appended, and an evicted segment's tracked channel is closed and its path forgotten |
| Hls.StepReleasesEvicted | upload/hls.go:230-258 | when the append evicts a tracked segment at another path, that segment's keep channel ends up closed and its path untracked |
| Hls.TrackChannels | upload/hls.go:222-258 | copying makes one channel per copied segment, never reopens a channel, and closes only channels tracked before or made by the copy |
| Hls.TrackLeavesOthers | upload/hls.go:244-249 | a registry entry at a path no copied segment lives at is left unchanged |
| Hls.TrackRegisters | upload/hls.go:230-249 | every copied segment's path ends up in the registry with a keep channel the copy made |
| Hls.Released | upload/hls.go:252-258 | releasing a tracked path closes its channel and forgets the path; the registry and the channel count are untouched |
| Hls.Kept | upload/hls.go:244-249 | keeping a path tracks it with no channel closed |
| Hls.WithoutHD | upload/hls.go:148-165 | never longer than its input; `WithoutHDExactly` proves it keeps exactly the non-HD items |
| Hls.WithoutHDExactly | upload/hls.go:148-165 | the filter keeps exactly the items that are not variants of width 1280 or more |
| Hls.FilterHDResolutions | upload/hls.go:148-165 | the kept items are those of WithoutHD, and the result is true iff a variant survives |
| Hls.AlternativeLanguages | upload/hls.go:275-287 | never more languages than items |
| Hls.AlternativeLanguagesExactly | upload/hls.go:275-287 | a language is listed iff a media item carries it with an explicit Default of false |
| Keeps.Channels.Make | upload/hls.go:245 | a channel distinct from every channel made before, open, and nothing else closes |
| Keeps.Channels.Close | upload/hls.go:255 | closes one open channel and no other |
| LimitReads.LimitReader.constructor | upload/limit_reader.go:12-17 | N starts at the limit and nothing has been read |
| LimitReads.LimitReader.Read | upload/limit_reader.go:21-31 | with N <= 0: no bytes, ErrLargeFile and no read; otherwise at most min(len(p), N) bytes, taken in order from the wrapped reader, N lowered by the count, EOF exactly when the wrapped reader is empty |
| LimitReads.DeliveredWithinLimit | upload/limit_reader.go:12-30 | over any run of reads, no more bytes are delivered than the limit or than the wrapped reader holds |
| LimitReads.ExhaustedAtLimit | upload/limit_reader.go:22-29 | once exactly the limit has been delivered, N is used up |
| LimitReads.ExactLimitScenario | upload/limit_reader.go:22-29 | a ten-byte body with a ten-byte limit: the first read returns it all, and the next one fails with ErrLargeFile rather than EOF |
| SegmentQuality.MasterPlaylistUrl | logreceiver/hls.go:139-147 | an error exactly for a transport that is neither hls nor hlsll |
| SegmentQuality.MasterPlaylistSlug | logreceiver/hls.go:139-147 | for a slash-free slug, the URL's next-to-last element is the slug and its last the transport's master file name |
| SegmentQuality.QualityFromSegmentURI | logreceiver/hls.go:150-162 | a quality name never holds '_' |
| SegmentQuality.HlsQualityIsFirstField | logreceiver/hls.go:152-153 | for HLS the quality is the base name up to its first '_' (or all of it), and it never fails |
| SegmentQuality.HlsllQualityIsSecondField | logreceiver/hls.go:154-159 | for low-latency HLS it fails exactly when the base name has no '_', and is otherwise the field after the first '_' |
| SegmentQuality.Lookup | logreceiver/hls.go:182-212 | defines GetQuality's answer on the current streams; `LookupFinds` proves when it finds a quality and that the answer is one of the stream's |
| SegmentQuality.LookupFinds | logreceiver/hls.go:182-212 | a file is attributed iff it is a segment file of a known stream whose qualities name its quality, and then to that quality's stream |
| SegmentQuality.HLSParser.constructor | logreceiver/hls.go:36-48 | no streams are known, and a zero stream timeout becomes 15 minutes |
| SegmentQuality.HLSParser.ExpireIdle | logreceiver/hls.go:56-63 | one tick deletes exactly the streams idle for longer than the timeout and leaves the others as they were, whatever order the map is walked in |
| SegmentQuality.Active | logreceiver/hls.go:58-62 | a stream is kept iff it was used no more than the timeout ago, and a kept stream is unchanged |
| SegmentQuality.UsedStreamLifetime | logreceiver/hls.go:58-62 | a stream last used at `used` survives a tick at `later` iff later - used is at most the timeout, and a second tick at the same time removes nothing more |
| SegmentQuality.HLSParser.AddStream | logreceiver/hls.go:214-228 | a known slug is left alone; an unknown one is added with no qualities, used now |
| SegmentQuality.HLSParser.GetQuality | logreceiver/hls.go:182-212 | the answer is the lookup on the old streams; a non-segment file changes nothing; an unknown slug is registered; a known one is marked used now |
| SegmentQuality.FirstSegmentsScenario | logreceiver/hls.go:189-209 | a stream's first segment only registers it, and without qualities the second is not attributed either |
| ViewerCount.Tally | logreceiver/parser.go:293-304 | defines the inner loop's per-stream count of unexpired segments of one kind; `TallyCounts` proves which streams appear and the bounds on their counts |
| ViewerCount.TallyCounts | logreceiver/parser.go:293-304 | a stream is tallied iff a segment of it inside the window is of the tallied kind, and its count is between 1 and the number of segments |
| ViewerCount.Trim | logreceiver/parser.go:293-298 | the cut is at most the number of segments; `TrimIsLastExpired` proves it falls right after the last expired segment |
| ViewerCount.TrimIsLastExpired | logreceiver/parser.go:293-298 | the cut falls right after the last segment outside the window, and every kept segment is inside it |
| ViewerCount.TrimmedUsers | logreceiver/parser.go:306-312 | a user is forgotten iff its last segment left the window (or it has none); a kept user keeps only segments inside the window |
| ViewerCount.OkIffAboveMinimum | logreceiver/parser.go:340 | ok holds iff some stream's count exceeds the minimum (or the minimum is negative) |
| ViewerCount.MaxQuality | logreceiver/parser.go:331-341 | a stream with the largest count, whatever the map order, and ok iff that count exceeds the minimum; the zero stream when nothing was counted |
| ViewerCount.AlongBound | logreceiver/parser.go:314-322 | each visited user adds at most one video and one audio viewer |
| ViewerCount.Scan | logreceiver/parser.go:290-304 | the inner loop yields the video and audio tallies and the trim point |
| ViewerCount.Parser.constructor | logreceiver/parser.go:126-140 | no segments, no viewers |
| ViewerCount.Parser.AddSegment | logreceiver/parser.go:235-244 | one segment stamped now is appended to that user's list, and no other user's list changes |
| ViewerCount.Parser.CountUser | logreceiver/parser.go:289-322 | one user: forgotten if all its segments expired, otherwise trimmed and its most watched video and audio streams counted |
| ViewerCount.Parser.Account | logreceiver/parser.go:314-322 | adds the maxQuality pick for video and for audio, each only when ok |
| ViewerCount.Parser.Count | logreceiver/parser.go:283-329 | the viewers restart from zero; afterwards the segments are the trimmed ones, every user is visited once, and the viewers are exactly what the kept users' picks add |
| UploadProxy.SingleJoiningSlash | cmd/upload-proxy/proxy.go:117-127 | defines the join with one slash at the seam; `SeamHasOneSlash` proves that shape |
| UploadProxy.SeamHasOneSlash | cmd/upload-proxy/proxy.go:117-127 | the join is `a` without its trailing slash, one slash, and `b` without its leading slash; it starts with `a` and ends with `b` minus its leading slash |
| UploadProxy.UploadBaseJoin | cmd/upload-proxy/proxy_test.go:52 | base /upload and /test.mp4 give /upload/test.mp4 |
| UploadProxy.JoinURLPath | cmd/upload-proxy/proxy.go:129-148 | defines the decoded and raw joined paths; `JoinURLPathSeams` proves how they relate to singleJoiningSlash |
| UploadProxy.JoinURLPathSeams | cmd/upload-proxy/proxy.go:129-148 | without raw paths the result is (singleJoiningSlash(paths), ""); with one, the raw path is singleJoiningSlash of the escaped paths and the decoded path starts with a's path |
| UploadProxy.Deadline | cmd/upload-proxy/proxy.go:104-115 | defines getDeadline by extension; `PlaylistDeadlines` proves the deadline for each extension |
| UploadProxy.PlaylistDeadlines | cmd/upload-proxy/proxy.go:104-115 | .m3u8 and .mpd get now + 6s, .ts and .m4s now + 60s |
| UploadProxy.ExtOfSuffix | cmd/upload-proxy/proxy.go:105 | a name ending in "." and a dot- and slash-free suffix has exactly that extension |
| UploadProxy.SinkDefaults | cmd/upload-proxy/sink.go:31-33 | queue size 0 becomes 128; any other configuration is kept |
| UploadProxy.Enqueued | cmd/upload-proxy/sink.go:60-71 | defines the drop-oldest enqueue; `EnqueuedShape` and `EnqueueDropsOnlyWhenFull` prove its bound, order and drops |
| UploadProxy.EnqueuedShape | cmd/upload-proxy/sink.go:60-71 | the queue never exceeds its capacity; the new request is last; the requests before it are the newest of the old queue, in FIFO order |
| UploadProxy.EnqueueDropsOnlyWhenFull | cmd/upload-proxy/sink.go:60-71 | below capacity nothing is dropped; at capacity exactly the oldest request goes |
| UploadProxy.Sink.constructor | cmd/upload-proxy/sink.go:39-43 | the sink takes the defaulted configuration, its capacity is the queue size, and the queue is empty |
| UploadProxy.Sink.Handle | cmd/upload-proxy/sink.go:53-72 | the request is moved onto the sink's scheme, host and joined path with the sink's credentials, then enqueued with drop-oldest |
| UploadProxy.Sink.Next | cmd/upload-proxy/sink.go:84 | a worker receives the oldest queued request, if there is one |
| UploadProxy.NewSink | cmd/upload-proxy/sink.go:30-44 | fails exactly when the address does not parse; otherwise a sink with the defaulted configuration and an empty queue |
| UploadProxy.Proxy.constructor | cmd/upload-proxy/proxy.go:28 | the proxy holds the given sinks |
| UploadProxy.Proxy.Broadcast | cmd/upload-proxy/proxy.go:172-178 | every sink queues its own rewritten copy of the request |
| UploadProxy.Proxy.HandleUpload | cmd/upload-proxy/proxy.go:150-180 | methods other than PUT, POST and DELETE get 200 "Invalid method" and reach no sink; an unreadable body gets 500 and reaches no sink; otherwise every sink queues its copy with the path's deadline, and the answer is 200 |
| UploadRegistry.TickedNStays | upload/registry.go:61-71 | a stream survives n > 0 ticks iff its time to live exceeds n intervals, and then has n intervals less and the same directories |
| UploadRegistry.KeepaliveLifetime | upload/registry.go:118-129 | after Keepalive(slug, timeout) the stream survives n > 0 ticks iff timeout > n * 2s |
| UploadRegistry.NewStreamLifetime | upload/registry.go:75-81 | a stream first seen by AddFile lives through four ticks and is removed by the fifth |
| UploadRegistry.FileDirCleaned | upload/registry.go:85-95 | removing a stream after AddFile(slug, path) calls the callback for the directory of `path`, whatever the map order |
| UploadRegistry.Registry.constructor | upload/registry.go:30-34 | no streams, no callback calls |
| UploadRegistry.Registry.AddFile | upload/registry.go:104-115 | registers an unknown slug with 10s to live, and adds Dir(path) to its directories; it never fails |
| UploadRegistry.Registry.Keepalive | upload/registry.go:118-129 | the time to live becomes `timeout`, creating the stream if it is absent |
| UploadRegistry.Registry.AddStream | upload/registry.go:75-81 | a fresh registration, 10s to live and no directories |
| UploadRegistry.Registry.RemoveStream | upload/registry.go:85-95 | the callback is called once per directory of the stream, then the stream is forgotten; an absent slug is a no-op |
| UploadRegistry.Registry.Timeout | upload/registry.go:61-71 | every time to live goes down by the interval, and exactly the streams at or below zero are removed, with their callbacks |
| UploadRegistry.Registry.RemoveAll | upload/registry.go:43-50 | on shutdown every stream is removed, with the callback for each of its directories |
| UploadAuth.FirstAllowed | upload/auth.go:78-84 | a found prefix is an allowed directory the path starts with; `FirstAllowedIsFirst` proves it is the earliest one and that None means none matches |
| UploadAuth.FirstAllowedIsFirst | upload/auth.go:78-84 | a prefix is found iff some allowed directory is a prefix of the path, and it is the earliest such one |
| UploadAuth.StripAllowed | upload/auth.go:77-87 | the loop finds exactly the first allowed prefix and strips it; with none the path is left as it is |
| UploadAuth.Rooted | upload/auth.go:88-90 | the remainder is made absolute |
| UploadAuth.PrefixWithoutBoundary | upload/auth.go:79-90 | the prefix test is on characters: "/allowed" also admits "/allowedfoo/...", with "/foo/..." as the remainder |
| UploadAuth.FirstElement | upload/auth.go:98-99 | an absolute path's second split element is its first path element, slash-free |
| UploadAuth.Auth | upload/auth.go:63-101 | access is granted iff the user is known, the password matches, some allowed prefix is found and the pattern matches the remainder; a refusal returns ""; a grant returns the remainder's first element |
| UploadStream.NewStream | upload/stream.go:30-39 | a new stream has a full ttl, no origin, the zero update time, an open alive channel and no parsers |
| UploadStream.Update | upload/stream.go:42-57 | a different origin is refused iff originUpdated + originTimeout is after now, and a refusal changes nothing; otherwise the origin is taken, confirmed now, and the ttl reset to the timeout |
| UploadStream.OriginHandover | upload/stream.go:42-57 | the same origin is never refused; another is accepted once originTimeout has passed; an accepted update repeated at the same time changes nothing more |
| UploadStream.Age | upload/stream.go:60-63 | the ttl goes down by the duration, and the result is true iff the ttl is used up |
| UploadStream.AgeTicks | upload/stream.go:60-63 | after n ticks the ttl is n intervals lower, and the n-th tick expires the stream iff ttl <= n * interval |
| UploadStream.Cleanup | upload/stream.go:65-73 | the alive channel is closed; the HLS parser is cleaned up and every parser forgotten |
| UploadStream.GetHLSParser | upload/stream.go:75-82 | the stored HLS parser if there is one; otherwise a fresh parser for the configuration, stored; at most one parser either way |
| UploadStream.WithDefaults | upload/stream_store.go:39-48 | zero durations become 10s, 2s and 6s; others are kept |
| UploadStream.StreamStore.constructor | upload/stream_store.go:39-60 | no streams, and the configuration with defaults |
| UploadStream.StreamStore.UpdateStream | upload/stream_store.go:114-125 | an unknown slug is registered with a new stream, then the stream's Update decides the answer and the new stream |
| UploadStream.StreamStore.GetStream | upload/stream_store.go:128-136 | the registered stream, or none for an unregistered slug |
| UploadStream.StreamStore.Parser | upload/stream.go:75-82 | a registered stream's HLS parser, created on first use and the same one afterwards; no other stream changes |
| UploadStream.StreamStore.RemoveStream | upload/stream_store.go:97-105 | an absent slug is a no-op; otherwise the stream is cleaned up and deleted |
| UploadStream.StreamStore.Tick | upload/stream_store.go:88-91 | one slug of the walk: aged by the expire interval, and removed iff its ttl is used up; a removed stream's HLS parser has closed all its keep channels and tracks no file, and every other stream's parser is unchanged |
| UploadStream.StreamStore.Timeout | upload/stream_store.go:85-93 | every stream ages by the expire interval, and exactly those whose ttl reaches zero are removed; each removed stream's HLS parser has closed all its keep channels and tracks no file, and the parsers of the survivors are unchanged |
| UploadStream.AgingOne | upload/stream_store.go:85-93 | a store of one stream after a tick holds the aged stream, or nothing if it expired |
| UploadStream.OneStreamTick | upload/stream_store.go:85-93 | the method agrees with AgingOne on a store of one stream |
| UploadStream.UnusedStreamScenario | upload/stream_store_test.go:10-25 | no stream before the update; the stream is there after it, and gone once its timeout has ticked away |
| UploadStream.SecondOriginScenario | upload/stream_store_test.go:27-43 | a second origin is refused right away and still at 150ms; it is accepted only once the stream has been removed |
| FileRegistry.WithDefaults | upload/file_registry.go:41-46 | a zero expire interval becomes 5s and a zero keep delay 10s; other values are kept |
| FileRegistry.Added | upload/file_registry.go:75-82 | the new entry replaces the one for its path unless it lacks a keep channel and the old one has one; other paths are untouched |
| FileRegistry.KeepPriority | upload/file_registry_test.go:74-98 | a plain registration after a keep leaves the kept entry as it was |
| FileRegistry.AddKeepsKeep | upload/file_registry.go:76-80 | an add never takes a keep channel away from a path |
| FileRegistry.Expired | upload/file_registry.go:97-123 | an expiry pass only ever removes paths |
| FileRegistry.OpenKeepStays | upload/file_registry.go:100-110 | an entry whose keep channel is open is neither removed nor changed |
| FileRegistry.ClosedKeepRearms | upload/file_registry.go:103-109 | a closed keep channel gives way to a deadline a keep delay after the pass, and the entry is not removed in that pass |
| FileRegistry.DeadlineDecides | upload/file_registry.go:112-121 | an entry without keep channel is removed iff its deadline is not after the pass, and is otherwise left alone |
| FileRegistry.RemovedAfterKeepDelay | upload/file_registry_test.go:45-70 | after its keep channel is closed, a file is removed by the first later pass that is at least a keep delay on, and by no earlier one |
| FileRegistry.Registry.constructor | upload/file_registry.go:40-53 | no files, and the configuration with defaults |
| FileRegistry.Registry.Add | upload/file_registry.go:75-82 | the files become Added of the old files and the new entry |
| FileRegistry.Registry.RegisterFile | upload/file_registry.go:126-131 | adds an entry with the deadline and no keep channel |
| FileRegistry.Registry.KeepFile | upload/file_registry.go:134-139 | adds an entry with the keep channel and the zero deadline |
| FileRegistry.Registry.Expire | upload/file_registry.go:97-123 | the files become the result of one expiry pass at now, whatever order the map is walked in |
| UploadStream.StreamStore.RemoveAll | upload/stream_store.go:69-76 | on shutdown every stream is removed, one removeStream per slug, whatever the map order |
| Transcode.Less | transcode/status.go:15-24 | defines ByLoad.Less: stream counts when either capacity is not positive, else load ratios compared by cross-multiplication; `LessIsLoadOrder` proves that comparison equals the ratio order |
| Transcode.LessIsLoadOrder | transcode/status.go:21-23 | with positive capacities the cross-multiplied comparison holds exactly when the first load ratio is below the second |
| Transcode.LessAsymmetric | transcode/status.go:15-24 | Less never holds both ways, so it is also irreflexive |
| Transcode.NotLessTransitive | transcode/status.go:15-24 | "not less loaded" is transitive when either every capacity is positive or none is |
| Transcode.LessCycle | transcode/status.go:16-19 | mixing transcoders with and without capacity lets three announcements each be less loaded than the next |
| Transcode.HeadIsLeast | transcode/status.go:15-24 | in a list where no element is less than its predecessor, with uniform capacities, nothing is less loaded than the head |
| Transcode.Swap | transcode/status.go:14 | the two elements are exchanged and nothing else changes |
| Transcode.Sort | transcode/transcoder.go:286 | the list is a permutation of the input in which no element is less than its predecessor |
| Transcode.Statuses | transcode/transcoder.go:282-285 | one status per listed key, in order, each the announced status of that key |
| Transcode.ClaimGoesToLeastLoaded | transcode/transcoder.go:276-296 | a claim is made only with capacity left, by the transcoder heading the sorted list; that head is an announced status and, with uniform capacities, no announced transcoder is less loaded |
| Transcode.NoClaimWhenFullOrAlone | transcode/transcoder.go:277-292 | no claim at full capacity, and none while no transcoder is announced |
| Transcode.Transcoder.constructor | transcode/transcoder.go:45-56 | name and capacity as configured; all four tables empty and no claims |
| Transcode.Transcoder.ShouldClaim | transcode/transcoder.go:276-297 | the answer is true iff capacity is left and this transcoder's name heads the announced statuses, listed in some map order and sorted by load |
| Transcode.Transcoder.ListAll | transcode/transcoder.go:282-285 | every announced key once, in some order, with its status |
| Transcode.Transcoder.ClaimStream | transcode/transcoder.go:300-317 | when announcing the claim succeeds, the slug joins the services and the claims; otherwise nothing changes |
| Transcode.Transcoder.HandleTranscoder | transcode/transcoder.go:187-210 | a put stores the decoded status under the key's service name and a delete forgets it; a nil pair, a bad name or undecodable data change nothing |
| Transcode.Transcoder.HandleStreamUpdate | transcode/transcoder.go:232-252 | a put stores the decoded stream and claims it exactly when shouldClaim decides so; undecodable data changes nothing; a delete forgets the stream and claims nothing |
| Transcode.Transcoder.HandleStreamTranscoder | transcode/transcoder.go:255-273 | a put records the stream's transcoder; a delete forgets it and, for a known stream, claims it exactly when shouldClaim decides so |
| Transcode.Transcoder.HandleStream | transcode/transcoder.go:213-229 | for a stream key, the state after handleStreamUpdate on the key's slug (the stream stored or forgotten, the claim decided by shouldClaim); for a stream-transcoder key, the state after handleStreamTranscoder on it; every table not named is unchanged; a nil pair, a key without a slug and any other key change nothing |
| MonitorWatch.KeysDistinct | monitor/watcher.go:153-247 | the four update keys are pairwise distinct, so each table has its own key |
| MonitorWatch.ReplayAppend | monitor/server.go:90-93 | merging one more update is merging it into the state the earlier updates gave |
| MonitorWatch.ReplayUntouched | monitor/server.go:90-93 | a key no update names keeps its value, or stays absent |
| MonitorWatch.ReplayLatest | monitor/server.go:90-93 | a key named by the last update holds that update's value |
| MonitorWatch.OneKeyMore | monitor/watcher.go:123-127 | relaying a one-key update keeps every relayed update at exactly one key |
| MonitorWatch.RelayTranscoders | monitor/watcher.go:153-157 | relaying a copy of the transcoder table keeps a receiver that merges every update in step with all four tables |
| MonitorWatch.RelayFanouts | monitor/watcher.go:184-188 | relaying a copy of the fanout table keeps a merging receiver in step with all four tables |
| MonitorWatch.RelayStreams | monitor/watcher.go:226-230 | relaying a copy of the stream table keeps a merging receiver in step with all four tables |
| MonitorWatch.RelayStreamTranscoders | monitor/watcher.go:243-247 | relaying a copy of the stream-transcoder table keeps a merging receiver in step with all four tables |
| MonitorWatch.Watcher.constructor | monitor/watcher.go:44-52 | four empty tables, nothing relayed, and the relay invariant holds |
| MonitorWatch.Watcher.SendUpdate | monitor/watcher.go:122-127 | exactly one update holding only the given key and snapshot is relayed; the tables are unchanged |
| MonitorWatch.Watcher.HandleTranscoder | monitor/watcher.go:129-158 | the transcoder table after the event as a put stores and a delete forgets; a copy of it is relayed under "transcoders" exactly when the event applies (non-nil pair, service key, decodable put); the invariant is kept |
| MonitorWatch.Watcher.HandleFanout | monitor/watcher.go:160-189 | the same for the fanout table under "fanouts" |
| MonitorWatch.Watcher.HandleStreamUpdate | monitor/watcher.go:209-231 | a put stores the decoded stream under the slug, a delete forgets it, and either relays a copy under "streams"; undecodable data changes and relays nothing |
| MonitorWatch.Watcher.HandleStreamTranscoder | monitor/watcher.go:233-248 | a put records the value as the slug's transcoder, a delete forgets it, and either relays a copy under "streamTranscoders" |
| MonitorWatch.Watcher.HandleStream | monitor/watcher.go:191-207 | for a stream key, the slug's stream is stored or forgotten and the new table relayed under "streams" (undecodable data changes and relays nothing); for a stream-transcoder key, the slug's transcoder is recorded or forgotten and the new table relayed under "streamTranscoders"; the other table is unchanged; a nil pair, a key without a slug and any other key change and relay nothing |
| GoMaps.CopyMap | monitor/watcher.go:153-156 | copying entry by entry in any key order gives exactly the original map |
| MonitorServe.Recipients | monitor/server.go:121-128 | one connection per written message, in order |
| MonitorServe.RecipientsStep | monitor/server.go:121-128 | writing one more message adds exactly its connection to the recipients |
| MonitorServe.BroadcastStep | monitor/server.go:121-128 | writing the update to one more connection extends a broadcast in progress by that connection |
| MonitorServe.Server.constructor | monitor/server.go:35-74 | an empty state, no clients, nothing written or received |
| MonitorServe.Server.AddClient | monitor/server.go:84-86 | the new connection is first written the whole current state, then joins the clients |
| MonitorServe.Server.RemoveClient | monitor/server.go:87-88 | only that connection leaves the clients; nothing else changes |
| MonitorServe.Server.Merge | monitor/server.go:91-93 | each key of the update replaces the held value and every other key is unchanged, whatever the key order |
| MonitorServe.Server.Broadcast | monitor/server.go:94-128 | the update itself, not the state, is written once to every connected client and to no one else; earlier messages are untouched |
| MonitorServe.Server.Receive | monitor/server.go:90-94 | the update is merged into the state and then broadcast; the state stays the merge of every update received |
| MonitorServe.Server.ReceiveAll | monitor/server.go:75-96 | receiving updates in order appends them to those received and keeps the state their merge |
| MonitorServe.Forward | monitor/server.go:90-94 | once the server has received every update the watcher relayed, its state shows the watcher's four tables |
| WatchEvents.Text | transcode/transcoder.go:258 | string(value): one character per byte, each with the byte's code |
| WatchEvents.ServiceTable | transcode/transcoder.go:187-208 | an event that does not apply (nil pair, key without a service name, undecodable put) leaves the table unchanged |
| WatchEvents.AnnounceThenLeave | monitor/watcher.go:139-150 | a service announced under its service key is stored under its name, and the matching delete leaves the table as it was without that name |
| AuthWatch.SettingsAfter | auth/watcher.go:67-92 | a nil pair, a key without a slug or undecodable data change nothing; other slugs keep their settings; only the event's slug can be added |
| AuthWatch.ParseStreamSettingsPath | client/path.go:28-84 | the slug comes back out of its settings key |
| AuthWatch.Grants | auth/watcher.go:94-106 | defines Auth's answer on a settings table; `PutGrants` and `DeleteRevokes` prove how events change it |
| AuthWatch.PutGrants | auth/watcher.go:81-105 | after settings are put under a slug's key, Auth for that slug holds exactly for their ingest type and secret |
| AuthWatch.DeleteRevokes | auth/watcher.go:89-101 | after a slug's settings are deleted, Auth refuses every request for it |
| AuthWatch.Watcher.constructor | auth/watcher.go:22-26 | no settings |
| AuthWatch.Watcher.HandleStreamSettings | auth/watcher.go:67-92 | the settings become the table after the event |
| AuthWatch.Watcher.Auth | auth/watcher.go:94-106 | true iff the slug has settings whose ingest type is the application and whose secret is the secret; false for an unknown slug |
| Publish.NewStreams | publish/publisher.go:125-147 | defines the streams the first loop collects; `CollectStep` proves the loop step and `ProcessedNew` which slugs end up stored |
| Publish.CollectStep | publish/publisher.go:126-147 | one stream further: it is collected iff its slug is not stored and it was granted a lease, published iff its slug is not stored, refreshed iff it is |
| Publish.Attempts | publish/publisher.go:126-139 | defines the streams publishStream is called for; `AttemptsAndRefreshes` proves they are exactly those with an unstored slug |
| Publish.Refreshes | publish/publisher.go:140-146 | defines the leases RefreshLease is called with; `AttemptsAndRefreshes` proves each is the lease of a stored slug of the input |
| Publish.AttemptsAndRefreshes | publish/publisher.go:126-147 | exactly the streams with an unstored slug are published; every other stream refreshes a stored lease; together one call per input stream |
| Publish.AddAll | publish/publisher.go:149-152 | storing never drops a slug |
| Publish.Processed | publish/publisher.go:124-153 | defines the table processUpdate leaves; `ProcessedKeeps` and `ProcessedNew` prove what it keeps and adds |
| Publish.ProcessedStep | publish/publisher.go:124-153 | one more input stream is stored, replacing what the batch collected for its slug, exactly when the slug was not stored before the batch and it was granted a lease |
| Publish.ProcessedKeeps | publish/publisher.go:140-152 | a stream stored before the batch is still stored, unchanged |
| Publish.ProcessedNew | publish/publisher.go:127-152 | a slug not stored before is stored afterwards iff one of its streams was granted a lease, and then it holds the last such stream with its lease |
| Publish.DuplicateSlugPublishedTwice | publish/publisher.go:123-139 | two streams with the same new slug in one batch are both published, and the second is the one stored |
| Publish.Expired | publish/publisher.go:98-109 | defines the table after the store's expiry reports; `ExpiredOnlyDrops`, `ExpiredKey` and `ExpiredSkipsMalformed` prove it only drops the reported slugs |
| Publish.ExpiredOnlyDrops | publish/publisher.go:99-109 | the store's reports only drop entries, and what stays is unchanged |
| Publish.ExpiredKey | publish/publisher.go:100-115 | the delete of "prefix:slug" drops the slug, and its put changes nothing |
| Publish.ExpiredSkipsMalformed | publish/publisher.go:100-103 | a key with no ':' or with more than one is skipped |
| Publish.Publisher.constructor | publish/publisher.go:48-52 | nothing stored, published or refreshed |
| Publish.Publisher.Collect | publish/publisher.go:125-147 | the collected streams, the publications and the refreshes are those NewStreams, Attempts and Refreshes give; the table is unchanged |
| Publish.Publisher.Store | publish/publisher.go:149-152 | the collected streams are stored in order under their slugs |
| Publish.Publisher.ProcessUpdate | publish/publisher.go:124-153 | the table becomes Processed of the old table, with the publications and refreshes logged |
| Publish.Publisher.HandleExpired | publish/publisher.go:98-109 | the table becomes Expired of the old table for the reported updates |
| Icecast.StatsSource | publish/source/icecast.go:84-93 | the source member is missing exactly when the document, or its icestats, is null or has no such member |
| Icecast.Parse | publish/source/icecast.go:84-109 | a body that is not JSON fails; a missing source gives no streams; a list gives one stream per element, in order, decoded; a single object gives that one stream |
| Icecast.SingleOrList | publish/source/icecast.go:95-108 | a single stream object and a one-element list of it parse alike, successfully iff the object decodes |
| Icecast.BadElementFailsList | publish/source/icecast.go:96-106 | one element that does not decode fails the whole list |
| Icecast.MapStreams | publish/source/icecast.go:111-123 | one stream per mount point, in order, in Matroska format, with the listen URL as source and its base name as slug |
| Icecast.SlugIsMountName | publish/source/icecast.go:114 | the slug of a listen URL ending in "/name" is name |
| Icecast.Scrape | publish/source/icecast.go:77-81 | succeeds iff parsing does, with one stream per parsed mount point whose source is its listen URL |
| UserAgent.LabelsDistinct | logreceiver/useragent.go:8-16 | the seven client types carry pairwise different labels |
| UserAgent.ParseUserAgent | logreceiver/useragent.go:19-44 | defines the client type: Other for an empty agent, else the first of Chrome, Firefox, libmpv, VLC, Lavf, Safari the agent contains; `FirstHitWins` proves this first-match rule for every rule |
| UserAgent.FirstHitWins | logreceiver/useragent.go:19-44 | the type is a rule's type iff the agent contains that rule's marker and none of an earlier rule; it is Other iff it contains no marker, the empty agent included |
| UserAgent.ChromeBeforeSafari | logreceiver/useragent.go:23-40 | an agent naming both Chrome and Safari is counted as Chrome |
| Dashboard.Indexed | monitor/frontend/src/redux/reducer.js:16-19 | spreading a string or an array gives its elements under their decimal indices, and no other key |
| Dashboard.DecimalInjective | monitor/frontend/src/redux/reducer.js:16-19 | different indices spread to different keys |
| Dashboard.TypeNotAnIndex | monitor/frontend/src/redux/reducer.js:15-19 | no spread index is the key `type` |
| ClientPath.StreamSettingsPathSplit | client/path.go:82-84 | a settings key splits into the root, "streamSettings" and the name |
| Watch.Missing | client/consul.go:155-165 | the keys left expected are exactly the cached keys the listing does not mention |
| Watch.Deletes | client/consul.go:179-186 | one delete event per missing key, in order, each with an empty value |
| UploadStream.Aging | upload/stream_store.go:85-93 | ageing part of the streams only ever removes slugs |
| GoStrings.Split | client/path.go:20 | strings.Split: at least one piece, none holding the separator, and joining them back gives the input |
| GoStrings.SplitCount | client/path.go:20-25 | a key with k separators splits into k + 1 pieces |
| GoStrings.SplitOfJoin | client/path.go:20 | splitting pieces joined by the separator gives the pieces back when none holds it |
| GoStrings.Base | publish/source/icecast.go:114 | path.Base is never empty and, except for the root, holds no slash |
| GoStrings.Ext | cmd/upload-proxy/proxy.go:105 | filepath.Ext is empty or a dot-led, slash-free suffix of the path |
| GoStrings.CleanRooted | upload/auth.go:74 | filepath.Clean of a rooted path made of plain names and empty elements is the root followed by the non-empty names joined by single slashes |

## Left out

- Goroutines, channels, mutexes and tickers: each event or tick is a sequential method call, and the order in which events arrive is a parameter.
- Go map iteration order: it is a parameter, either a sequence enumerating the keys or a choice inside the loop. Every property is proved for every order.
- `time.Now()` is a parameter, and time is an integer count of nanoseconds. file_registry's second `time.Now()` in `expire` is taken equal to the first.
- Transcode.Sort: `sort.Sort` is modelled as the insertion sort Go's pdqsort uses for at most 12 elements. Its longer paths, for more than 12 transcoders, are not modelled. Sortedness is stated for adjacent pairs, because `Less` is not transitive in general.
- Transcode.Less: the float division of the load ratios is replaced by integer cross-multiplication, which is proved equivalent to comparing exact ratios, not float ones.
- The transcoder's ticker loop and `publishStatus` (transcode/transcoder.go:125-157) are not modelled. Lines 168-172 set a field `TranscoderStatus` does not have.
- Transcode.Transcoder.ClaimStream: the store write is reduced to whether the put succeeded. Errors from starting the transcoding service are left out.
- I/O is not modelled: HTTP, websockets, the JSON encoding of monitor messages, disk access and D-Bus. Monitor clients are natural-number ids.
- The socket's 1000 ms reconnect in the dashboard's socket wrapper is not modelled.
- The log receiver's `parseEntry` regular expression, the Prometheus `Collect` function and the throttling around it are not modelled.
- ViewerCount: viewers are counted by the entries kept for each user. The log lines themselves are not modelled.
- Hls: `ParsePlaylist` (upload/hls.go:74-113) is modelled for media playlists by `Hls.HLSParser.GetVariantPlaylist`, `CheckDiscontinuity`, `AppendItems` and `Hls.LivePlaylist.SetSegmentTarget`. Reading the playlist (`m3u8.Read`) and `writePlaylist` are I/O and are not modelled; playlist contents are values.
- Hls: for master playlists, `fixupCodecInformation` (called at upload/hls.go:85, defined at upload/hls.go:169-181) and `generateLanguageMasters` (upload/hls.go:117-145) are not modelled beyond the two filters they use, `Hls.FilterHDResolutions` and `Hls.AlternativeLanguages`. Rewriting the codec strings and the Default flags of each language's master playlist, and writing those playlists, are left out.
- SegmentQuality: of the log receiver's `updatePlaylists` ticker (logreceiver/hls.go:50-69), one tick's expiry of idle streams is `SegmentQuality.HLSParser.ExpireIdle`. Fetching each remaining stream's master playlist (`updateMasterPlaylist`, logreceiver/hls.go:71-136) is I/O and is not modelled, so a stream's qualities stay as the model was given them.
- Hls.FilterHDResolutions returns the kept items instead of assigning them to the playlist.
- UploadStream: a stream is a value held in the store's map, so two holders of one `*Stream` pointer sharing its updates are not modelled.
- Hls.Push: a window of capacity 0 panics on its first append, because `append` reads the first item of an empty list (upload/hls.go:309-310). `Push`, `PushAll`, `Step`, `Track`, `TrackAppend`, `Hls.LivePlaylist.Append`, `Hls.LivePlaylist.ApplyDiscontinuity` and the `Hls.HLSParser` methods that append (`CheckDiscontinuity`, `AppendItems`, `CopyFrom`, `VisitItem`, `CopySegment`) require a non-zero capacity or a non-empty window, so that panic is excluded rather than modelled.
- UploadProxy.Sink.constructor: `make(chan, n)` panics for a negative queue size (cmd/upload-proxy/sink.go:42), so the constructor requires a size that is not negative, and `UploadProxy.NewSink` requires it once the address has parsed. The panic itself is not modelled.
- Hls.HLSParser.Cleanup: Go sets the file map to nil (upload/hls.go:61), so a later `keepFile` would panic writing to it (upload/hls.go:247). The model empties the map instead, and a later `KeepFile` succeeds.
- Dashboard: JavaScript spreads a string by UTF-16 code unit, so a character outside the Basic Multilingual Plane takes two keys. The model spreads one Dafny character per key.
- UploadStream.StreamStore.RemoveAll: its contract states only that the map ends empty. That each stream's parsers were cleaned up is stated per stream, by `RemoveStream`.
- Removing a stream's directory is modelled as removing its entry from the map. `os.RemoveAll` itself is not modelled.
- file_registry's `cleanup()` only deletes files from disk and is not modelled.
- UploadAuth: `bcrypt` and `wildcard.MatchSimple` are function parameters.
- Publish: the publisher's logging is not modelled. Every watch update carries its key-value pair; a nil `KV`, which the watch loop would dereference, is not modelled. Leases are parameters.
- Icecast: the HTTP fetch, case-insensitive matching of JSON keys and time parsing inside the decoder are not modelled; the decoding of one source is a function parameter. A JSON `null` inside the source list becomes a nil pointer that `mapStreams` would dereference; the model hands it to the element decoder like any other element.
- GoStrings models only the parts of the Go standard library these services call, for the inputs they pass.
- Dashboard: `UPDATED_STREAM_SETTINGS` is imported by the reducer but not defined in actions.js, so the model gives it its own constant, distinct from the other three. In the JavaScript the import is `undefined`, so no action with a string type reaches that case: it falls to `default` and leaves the state unchanged. The model's branch shows the intended behaviour, not the actual one.
- Json: numbers are integers. Fractional JSON numbers are not modelled, and neither is the float decoding of numeric fields in the Icecast statistics and in the monitor's messages.
