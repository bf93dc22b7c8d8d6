# A verified model of wasm-nginx-module

wasm-nginx-module hosts Proxy-Wasm plugins in nginx workers. This project models the four parts of
it whose state is hard to keep right, and proves what they guarantee.

* **Contexts and their reclamation.** Plugins own plugin contexts, which own one HTTP context per
  request. Records move between `occupied` and `free` queues, are marked `done` and freed later, are
  recycled with their ids, and disappear with a pool, while request cleanup walks an array of the
  records it is freeing. `Lifecycle` gives the net effect of each entry point on a world with an
  explicit heap, in which a dangling pointer is a failed lookup; `Worker.Module` is the
  module as it is written, statement by statement, and is proved to have exactly these effects. The guest, the
  allocators and the order of all events are arbitrary. The calls that guests receive are recorded
  and judged by the acceptor in `Abi`, which follows the "Module lifecycle" section of
  `proxy_wasm_abi.md` and of which `History` says in terms of the calls alone what it accepts. `GuestCalls` gives, for
  each entry, exactly the calls it makes, with their ids. `Minting` counts the ids that a run takes, `Recycling` follows the free queues, `Holding`
  shows that a request keeps its contexts, and `Farewells` what becomes of a guest that is not done.
* **Header maps.** `HeaderMap` defines the format, `MapIterator.Iter` is the two-cursor reader and
  writer over the caller's buffer, and `Serializers` and `ResponseHeaders` are the three host functions
  that measure a header list, ask the guest for a block, and fill it. `HeaderLookup` looks single
  headers up in nginx's chunked lists, `LocalResponse` applies a decoded map to a response, and `ResponseView`
  says what is found in a response under which name.
* **HTTP callouts.** `Protocol` is one worker with many requests: a pending slot per request, callout ids
  and a response code shared by all requests, and a Lua driver per request that yields while its
  callout is under way. `ProtocolGuarantees` and `DriverGuarantees` prove what holds in every interleaving, `Driver`
  is the same in place with the driver's loop, and `Callout` decodes a guest's header map into the
  request that Lua sends and flattens the response for the guest. `Together` runs this model and that of
  the contexts side by side, with the same answers, and joins what is proved of the two.
* **Guest memory and the current state.** `GuestMemory` transfers bytes through the guest's own
  allocator into the memory of the plugin called last; `StateCoherence` says which state and which body
  every call of every step finds, and `Dangling` when that state is still allocated, for which it
  decides from the state before a step which plugins the step frees.

A step of a run is one call from Lua or nginx. Legal runs are restricted only by what Lua and
nginx ensure: handles that are passed are still held, each finalizer runs once per handle, the cleanup
handler of a request runs once, and a request has one driver at a time. Memory is assumed where
the code does not check for it (the push onto `http_ctxs`). What the code asks of its surroundings and
cannot decide itself (allocation, guest results, what lua-nginx-module answers) is a parameter.

Where the code departs from its intent, the code is modelled, and the condition under which the
intent is met is proved:

* the response serializer resumes its second pass where the first one stopped
  (`ResponseHeaders.ExactIffLastPart`), and leaves four bytes of its block unwritten
  (`ResponseHeaders.OnePartIsExact`);
* `cur_state` stays set after a configuration that fails early (`StateCoherence.StateIsLeftBehindExactlyWhen`), can
  then outlive its plugin (`Dangling.StateIsLiveExactlyWhen`), and code of a guest can run with the freed state current
  (`Dangling.NoCallFindsAFreedStateExactlyWhen`);
* a guest that answers `proxy_on_done` with false is deleted by the next call all the same, the answer is only logged,
  and `proxy_done` is not implemented (`Farewells.ConsentIsNotWaitedFor`);
* `proxy_on_configure` is shown a body that nobody has initialized (`StateCoherence.EveryCallSees`);
* a response code stays set when the creation of an HTTP context fails (`ProtocolGuarantees.CodeIsLeftExactlyWhen`), and can
  then decide another request (`ProtocolGuarantees.StaleCodeMattersExactlyWhen`, for callbacks
  `StaleCodeMattersToResponseExactlyWhen`);
* the body of a local response can be an earlier one's, of another request even, or be read from a null or freed
  pointer or beyond its end (`DriverGuarantees.BodyIsolatedExactlyWhen`);
* a callout can be left in the slot of its request (`DriverGuarantees.SlotIsLeftExactlyWhen`) and then be sent for, and
  answered to, another plugin context (`DriverGuarantees.CalloutsStayStraightExactlyWhen`);
* the driver's loop spins or fails on some guest results (`DriverGuarantees.StuckExactlyWhen`), which takes the whole
  worker with it;
* a request keeps pointing to the headers of its callout's response, in a buffer that all requests share
  (`DriverGuarantees.ResponseIsReadExactlyWhen`);
* a guest's header map is read as far as its own numbers say, inside its buffer or not
  (`HeaderMap.MapFitsExactlyWhen`), and a callout is sent whenever what is read of its map is inside
  (`Callout.SendHttpCall`), also if the map is not well formed (`Callout.EmptyKeyNeedsNoValue`,
  `Callout.ReplacedNeedsNoValue`);
* absent pseudo headers of a callout take their value from an earlier callout (`Callout.CellIsFreshIffPresent`);
* a callout is sent although the guest was told it failed (`Driver.Worker.ProxyHttpCall`);
* the clamp of `proxy_get_buffer_bytes` fails when its sum overflows (`GuestMemory.ClampIsExactIff`);
* the flattened response of a callout takes one slot more than its buffer is sized for (`Callout.FlattenAnswer`);
* counters wrap (`Guarantees.GuestSeesLegalHistory`, `Wraparound.IdZeroIsHandedOut`,
  `ProtocolGuarantees.IdsAreDistinctBelowWrap`).

## Model

| member | source | states |
|---|---|---|
| Guarantees.GuestSeesLegalHistory | proxy_wasm_abi.md:57-90 | in every run, for any interleaving and any guest failures, the calls of a plugin are a history the ABI lifecycle allows, answers to proxy_on_done aside, if and only if that plugin has minted fewer than 2^32 ids |
| Guarantees.GuestsSeeLegalHistories | proxy_wasm_abi.md:57-90 | the calls of all plugins together are allowed, answers aside, if and only if no plugin has minted 2^32 ids |
| Guarantees.GuestReceivesAllowedCalls | proxy_wasm_abi.md:57-90 | the same of the calls themselves, without an acceptor: each call that a guest receives is allowed by those before it if and only if its plugin has minted fewer than 2^32 ids |
| History.AcceptedExactlyWhen | proxy_wasm_abi.md:57-90 | the acceptor accepts a history if and only if each call is allowed by the calls before it: loaded once, each context created under a live root, configured and called only while it is there and not done, told to be done once and without children, deleted once and only then, and unloaded when no context is left |
| Farewells.GuestIsTreatedAsAgreed | proxy_wasm_abi.md:71-79 | answers included: the history of a guest is allowed and each of its contexts is deleted with its consent if and only if its plugin has minted fewer than 2^32 ids and it has agreed at once whenever it was asked |
| Farewells.ConsentIsNotWaitedFor | src/http/ngx_http_wasm_module.c:331-341 | whatever guests answer in a run, the contexts of any set of plugins are all deleted with consent if and only if each answer was true at once |
| Farewells.DoneIsFollowedByDelete | src/http/ngx_http_wasm_module.c:539-549 | in every run each proxy_on_done is followed at once by the proxy_on_delete of the same context, and there is no other proxy_on_delete |
| Minting.RunCounts | src/http/ngx_http_wasm_module.c:381-399 | in every run a plugin's counter stands at the number of ids the run has minted for it modulo 2^32, and from the 2^32nd on the id 0 has been announced |
| Minting.StepCounted | src/http/ngx_http_wasm_module.c:381-491 | which steps mint an id for which plugin, decided by their pre-states, and that all other counters and ids stay |
| Guarantees.CreatesAreDeletedOnce | proxy_wasm_abi.md:57-90 | in an accepted history each successful create of an id has one done and one delete, but for a context that is alive |
| Guarantees.LoadedAndUnloadedOnce | src/http/ngx_http_wasm_module.c:207-305 | in an accepted history a plugin is loaded at most once and unloaded at most once |
| Guarantees.EveryCreateIsDeleted | src/http/ngx_http_wasm_module.c:274-361 | when all handles are finalized and all requests are over, every create under a plugin that has minted fewer than 2^32 ids was answered by one done and one delete |
| Guarantees.EveryLoadIsUnloaded | src/http/ngx_http_wasm_module.c:207-305 | then, whatever the counters, every load was answered by one unload |
| Guarantees.NoDanglingPointer | src/http/ngx_http_wasm_module.c:274-361 | in every reachable state every handle, queue entry and request array entry leads to a live record with a live parent and pool |
| Guarantees.OneHolder | src/http/ngx_http_wasm_module.c:591-629 | each HTTP context in use is in the array of exactly one request, and a request has one per plugin context |
| Holding.EntryStaysUntilTheEnd | src/http/ngx_http_wasm_module.c:591-629 | once a request has an HTTP context under a plugin context, every lookup finds that one in every continuation of the run in which the request does not end, whatever is freed, created or refused meanwhile |
| Holding.CallbackFindsItsContext | src/http/ngx_http_wasm_module.c:767-774 | so a callback that comes before the end of its request, with its plugin context held, never takes the early return, whatever the allocators and the guest would answer |
| Guarantees.NoDoubleFree | src/http/ngx_http_wasm_module.c:274-353 | in every run nothing is freed twice and nothing freed is still linked |
| Guarantees.NoLeak | src/http/ngx_http_wasm_module.c:274-361 | once all handles are finalized and all requests cleaned up, in any order, everything allocated was freed exactly once |
| Guarantees.IdsAreDistinct | src/http/ngx_http_wasm_module.c:381-399 | while a plugin has minted fewer than 2^32 ids, its contexts of both kinds have pairwise different ids between 1 and its counter |
| Minting.IdsAreMintedForGood | src/http/ngx_http_wasm_module.c:324-346 | over every run an id of a plugin, once minted for a record, is never minted for another while the plugin has minted fewer than 2^32, even when a destroyed pool took the record away |
| Recycling.FreedLastIsReusedLast | src/http/ngx_http_wasm_module.c:381-399 | a record inserted at the head of a free queue is handed out after all that were freed before it |
| Recycling.HttpContextsAreReusedInOrder | src/http/ngx_http_wasm_module.c:472-537 | over any stretch of a run in which a plugin context keeps its pool, the HTTP contexts handed out again, followed by those still free, are those free at first followed by those that came back, in order |
| Recycling.ContextsAreReusedInOrder | src/http/ngx_http_wasm_module.c:324-416 | the same for plugin contexts over any stretch in which their plugin is loaded, with contexts that come back refused, given up, finalized or at the end of a request |
| Recycling.TakenHttpIsHeld | src/http/ngx_http_wasm_module.c:493-628 | the HTTP context that a phase takes and the guest accepts joins the array of the request |
| Wraparound.IdZeroIsHandedOut | src/http/ngx_http_wasm_module.c:381-399 | after a multiple of 2^32 configurations a context is announced with id 0 and the history is no longer one the ABI allows |
| Wraparound.ManyContextsRun | src/http/ngx_http_wasm_module.c:364-457 | n successful configurations are a legal run that leaves the counter at n modulo 2^32 |
| Entries.UnloadKeeps | src/http/ngx_http_wasm_module.c:300-305 | the finalizer of a plugin keeps the whole invariant |
| Entries.FreePluginKeeps | src/http/ngx_http_wasm_module.c:274-297 | freeing a plugin keeps the invariant, which for a moment excuses that plugin from being needed |
| Entries.FreeCtxKeeps | src/http/ngx_http_wasm_module.c:308-353 | freeing a plugin context, and with the last one its plugin, keeps the invariant |
| Entries.ConfigureKeeps | src/http/ngx_http_wasm_module.c:364-457 | configuring keeps the invariant, whatever the guest answers and whichever allocation fails |
| EntriesHttp.OnHttpKeeps | src/http/ngx_http_wasm_module.c:661-730 | serving a phase of a request keeps the invariant and leaves no state current |
| EntriesHttp.OnHttpCallRespKeeps | src/http/ngx_http_wasm_module.c:748-794 | the callback of a callout keeps the invariant and leaves no state current |
| EntriesHttp.FetchKeeps | src/http/ngx_http_wasm_module.c:591-629 | looking up or creating an HTTP context keeps the invariant while an entry is under way |
| EntriesHttp.CleanupOneKeeps | src/http/ngx_http_wasm_module.c:530-556 | each turn of the cleanup loop keeps the invariant, also when it frees the context and the plugin |
| Runs.Run | src/http/ngx_http_wasm_module.c:207-794 | every legal run of all entry points, from an empty worker, keeps the invariant |
| Runs.Cleanup | src/http/ngx_http_wasm_module.c:511-557 | the whole cleanup of a request keeps the invariant |
| StateCoherence.EveryCallSees | src/http/ngx_http_wasm_state.c:23-89 | for every call that the k-th step of a run makes: which state is current, and exactly which body it shows, the chunk of a phase, the uninitialized bytes for proxy_on_configure, none otherwise |
| GuestCalls.PhasesCarryTheirOwnId | src/http/ngx_http_wasm_module.c:704-723 | in every run, each phase that a guest is called for carries the id of the HTTP context that its own request has under the plugin context it serves, is of that plugin, and is the last call of its step |
| GuestCalls.PhaseCalls | src/http/ngx_http_wasm_module.c:661-730 | exactly which calls a phase makes: the announcement of a new context with its id and its parent's, if one is made, and one call with the id of the context that the request then has, or none without one |
| GuestCalls.CallbackCalls | src/http/ngx_http_wasm_module.c:748-794 | the same for the callback of a callout, which carries the id of the plugin context |
| GuestCalls.ConfigurationCalls | src/http/ngx_http_wasm_module.c:364-457 | exactly which calls a configuration makes, all with the id of the record that is used again or of a new one, and that its handle is returned if and only if nothing fails |
| GuestCalls.LoadCalls | src/http/ngx_http_wasm_module.c:207-271 | exactly which calls loading makes, and when a handle is returned |
| GuestCalls.FinalizerCalls | src/http/ngx_http_wasm_module.c:308-361 | exactly which calls the finalizer of a plugin context makes |
| GuestCalls.PluginFinalizerCalls | src/http/ngx_http_wasm_module.c:274-305 | exactly which calls the finalizer of a plugin makes |
| GuestCalls.TurnCalls | src/http/ngx_http_wasm_module.c:530-556 | exactly which calls a turn of the cleanup loop makes: for its HTTP context, and for its plugin context and its plugin if they go with it |
| StateCoherence.CallbacksFindTheirOwnState | src/http/ngx_http_wasm_module.c:404-783 | in every run a guest that is called for a new context, its configuration, a phase or a callout's response finds an allocated state of its own plugin |
| StateCoherence.StateAndMemoryAgree | src/vm/wasmtime.c:279-283 | while such a call runs, cur_plugin, whose memory host functions use, and the plugin of cur_state are the same |
| StateCoherence.StateAfter | src/http/ngx_http_wasm_module.c:404-783 | which state is current after each step |
| StateCoherence.StateIsLeftBehindExactlyWhen | src/http/ngx_http_wasm_module.c:404-426 | a step that starts without a current state ends without one if and only if it is not a configuration that fails at the context or at the two allocations after it |
| StateCoherence.ClearRunsStayClear | src/http/ngx_http_wasm_module.c:442-457 | a run without such configurations ends with no current state |
| Dangling.PluginFreedExactlyWhen | src/http/ngx_http_wasm_module.c:274-361 | a step frees a plugin if and only if a stated condition on its pre-state holds: its finalizer without a context in use, the finalizer of its last context, or the end of a request that holds all children of its contexts |
| Dangling.GoneAfterTurns | src/http/ngx_http_wasm_module.c:530-556 | after k turns of the cleanup loop a plugin is gone if and only if it is done, its contexts are, and all their children are among the first k entries |
| Dangling.StateLiveExactlyWhen | src/http/ngx_http_wasm_state.c:23-33 | the state that is current after a step is allocated if and only if the step renews it, or it was allocated and the step does not free its plugin |
| Dangling.StateIsLiveExactlyWhen | src/http/ngx_http_wasm_state.c:23-33 | in every run cur_state is allocated if and only if no step since its last renewal has freed its plugin |
| Dangling.CallsFindLiveExactlyWhen | src/http/ngx_http_wasm_module.c:207-361 | all calls of a step that run code of a guest find no state or an allocated one if and only if a condition on its pre-state holds, given which of _start, proxy_on_done and proxy_on_delete the guests export; unloading a VM runs none, and the cleanup of a request is judged turn by turn |
| Dangling.NoCallFindsAFreedStateExactlyWhen | src/http/ngx_http_wasm_module.c:207-361 | in every run all calls that run code of a guest find no state or an allocated one if and only if every step met that condition |
| Dangling.RefusedThenFinalizedDangles | src/http/ngx_http_wasm_module.c:408-413 | a refused context followed by the finalizer of its plugin leaves cur_state pointing into freed memory |
| Worker.Module.LoadPlugin | src/http/ngx_http_wasm_module.c:207-271 | loading has the effect of the specification and returns a handle exactly on success |
| Worker.Module.FreeSpareContexts | src/http/ngx_http_wasm_module.c:286-294 | the loop frees the contexts of the free queue from its end, each once, and no others |
| Worker.Module.FreePlugin | src/http/ngx_http_wasm_module.c:274-297 | has the effect of the specification: nothing while a context is occupied, otherwise the plugin and its free contexts go |
| Worker.Module.UnloadPlugin | src/http/ngx_http_wasm_module.c:300-305 | marks the plugin done and frees it as the specification says |
| Worker.Module.FreePluginCtx | src/http/ngx_http_wasm_module.c:308-353 | done and delete, queue move, pool destruction and the deferred release of the plugin have the specified effect |
| Worker.Module.DeletePluginCtx | src/http/ngx_http_wasm_module.c:356-361 | marks the context done and frees it as the specification says |
| Worker.Module.CreatePluginCtx | src/http/ngx_http_wasm_module.c:381-416 | recycles or mints a record, announces it, and either puts it back at the head of the free queue or puts it to use |
| Worker.Module.OnConfigurePlugin | src/http/ngx_http_wasm_module.c:364-457 | has the effect of the specification and returns a context, the last of the free queue or a new one, exactly when every step succeeded |
| Worker.Module.CreateHttpCtx | src/http/ngx_http_wasm_module.c:460-508 | recycles or mints an HTTP context under its parent with the specified effect |
| Worker.Module.SearchEntry | src/http/ngx_http_wasm_module.c:612-619 | the scan of the request's array finds the entry of the plugin context, if there is one |
| Worker.Module.FetchHttpCtx | src/http/ngx_http_wasm_module.c:591-629 | registers the module context and its array as needed and returns the one HTTP context of the request |
| Worker.Module.OnHttpRequest | src/http/ngx_http_wasm_module.c:661-730 | has the effect of the specification on records, states and guest calls, and runs the callback exactly when it has a context |
| Worker.Module.OnCallResponse | src/http/ngx_http_wasm_module.c:748-794 | the same for the callback of a callout |
| Worker.Module.LeaveState | src/http/ngx_http_wasm_state.c:23-33 | set_state(NULL) clears the body of the state it leaves, and the current state |
| Worker.Module.CleanupRequest | src/http/ngx_http_wasm_module.c:511-557 | the loop over http_ctxs, which frees objects as it goes, follows live pointers only and has the effect of the specification |
| Worker.CleanupTurnIsSafe | src/http/ngx_http_wasm_module.c:530-556 | in the middle of the loop the next entry still leads to a live HTTP context with a live parent and plugin |
| Worker.Module.Take | src/http/ngx_http_wasm_module.c:207-794 | any step, taken in place, keeps the invariant and gives the state of the specification |
| Worker.RunWorker | src/http/ngx_http_wasm_module.c:207-794 | a worker that is taken through a legal run ends in the state of the run |
| HeaderMap.Le32RoundTrip | src/proxy_wasm/proxy_wasm_map.c:28-42 | an int32_t cell reads back as what was stored |
| HeaderMap.CellIsLittleEndian | src/proxy_wasm/proxy_wasm_map.c:28-92 | the byte order of a cell: lowest byte first, negative values as those 2^32 above them |
| HeaderMap.CellOfBytes | src/proxy_wasm/proxy_wasm_map.c:35-65 | any four bytes are the cell of the value read from them |
| HeaderMap.Wrap32IsCongruent | src/proxy_wasm/proxy_wasm_map.c:35-42 | an int32_t product differs from the exact one by a multiple of 2^32 |
| HeaderMap.LayoutSnoc | src/proxy_wasm/proxy_wasm_map.c:68-92 | writing one entry extends the map by it and spares every earlier entry, in both regions |
| HeaderMap.HoldsUnique | src/proxy_wasm/proxy_wasm_map.c:45-65 | a buffer holds at most one list of pairs |
| HeaderMap.MapFitsExactlyWhen | src/proxy_wasm/proxy_wasm_map.c:35-65 | a buffer holds a list, whoever wrote it, if and only if its numbers go together: the count is not negative, the table is inside, no length is negative, and the text is inside but for the last terminator |
| HeaderMap.EncodedHolds | src/proxy_wasm/proxy_wasm_map.c:28-92 | the encoding of a list holds that list, whatever follows it |
| HeaderMap.EncodedTerminates | src/proxy_wasm/proxy_wasm_map.c:68-115 | each key and each value of an encoding is followed by a NUL |
| MapIterator.InitMap | src/proxy_wasm/proxy_wasm_map.c:28-32 | stores the count and nothing else |
| MapIterator.Iter.constructor | src/proxy_wasm/proxy_wasm_map.c:35-42 | places the two cursors by the stored count, the second by an int32_t product |
| MapIterator.Iter.Next | src/proxy_wasm/proxy_wasm_map.c:45-65 | advances both cursors past one entry, or says that there is none |
| MapIterator.Iter.Step | src/proxy_wasm/proxy_wasm_map.c:45-65 | on a buffer of any content: yields the next pair, or ends having come over the list held, or leaves the buffer, which it does only if the numbers do not go together |
| MapIterator.Iter.NextPair | src/proxy_wasm/proxy_wasm_map.c:45-65 | on a buffer that holds a list, yields its pairs in order and then no more |
| MapIterator.Iter.Reserve | src/proxy_wasm/proxy_wasm_map.c:68-92 | writes the two lengths and the two terminators and returns where key and value go |
| MapIterator.Iter.Put | src/proxy_wasm/proxy_wasm_map.c:68-92 | reserve and copy extend the written map by exactly one pair |
| MapIterator.Iter.PutLiteral | src/proxy_wasm/proxy_wasm_map.c:95-115 | the literal variant extends the written map by exactly one pair |
| MapIterator.WriteMap | src/proxy_wasm/proxy_wasm_map.c:28-92 | one entry per pair writes the encoding of the list and no byte beyond |
| MapIterator.ReadMap | src/proxy_wasm/proxy_wasm_map.c:35-65 | reading until next says no yields exactly the list held |
| MapIterator.MapRoundTrip | src/proxy_wasm/proxy_wasm_map.c:28-92 | any list whose encoding fits an int32_t is read back as written, empty strings and NULs included |
| Serializers.RequestHeaders | src/http/ngx_http_wasm_api.c:927-1013 | the block has exactly the measured size and holds the encoding of the headers followed by :scheme (https or http), :path, :method and :authority with these fields of the request; each error case has its result |
| Serializers.RequestHeadersReachGuest | src/http/ngx_http_wasm_api.c:1001-1010 | the guest that reads the block back finds the headers and then the four pseudo headers with the fields of the request |
| Serializers.CallResponseHeaders | src/http/ngx_http_wasm_api.c:1192-1236 | the same for the headers of a callout's response |
| ResponseHeaders.MeasureList | src/http/ngx_http_wasm_api.c:1039-1066 | the size pass counts and measures the live headers of all parts and ends on the last part |
| ResponseHeaders.LowerIsSmall | src/http/ngx_http_wasm_api.c:1123-1151 | lower-casing turns A to Z into a to z and changes no other byte |
| ResponseHeaders.FillList | src/http/ngx_http_wasm_api.c:1123-1151 | the fill pass writes the live headers of the parts it still sees, in order, lower-cased |
| ResponseHeaders.WriteResponseHeaders | src/http/ngx_http_wasm_api.c:1016-1189 | what the block is left with: the intended count, and the entries of the last part and of the added headers |
| ResponseHeaders.OnePartIsExact | src/http/ngx_http_wasm_api.c:1083-1186 | without live headers in earlier parts the map is exactly the intended one and ends four bytes before the block |
| ResponseHeaders.SkippedIsLost | src/http/ngx_http_wasm_api.c:1123-1151 | with a skipped header there is a block content for which the result holds no list at all |
| ResponseHeaders.ExactIffLastPart | src/http/ngx_http_wasm_api.c:1123-1151 | the guest gets the intended map whatever its block held if and only if all live headers are in the last part |
| ResponseView.AddedAreFound | src/http/ngx_http_wasm_api.c:1068-1186 | what a guest finds under each name that nginx adds: content-type, content-length as a number, connection (upgrade for 101, else keep-alive or close), transfer-encoding and :status as a number, each exactly when it applies |
| HeaderLookup.FindHeader | src/http/ngx_http_wasm_api.c:1296-1321 | the walk over the chunked list returns the first live match of the concatenated list, and ends |
| HeaderLookup.PseudoHeader | src/http/ngx_http_wasm_api.c:875-912 | the table scan gives the scheme, path, method or authority of the request for the name of that pseudo header in any case, and nothing for other names |
| HeaderLookup.RequestHeader | src/http/ngx_http_wasm_api.c:1271-1330 | for the name of a pseudo header that field of the request, for any other name the first match among all headers |
| HeaderLookup.PseudoHides | src/http/ngx_http_wasm_api.c:1286-1294 | a name of the table, in any case, always gives its field of the request, whatever headers there are |
| HeaderLookup.LookupAgreesWithEnumeration | src/http/ngx_http_wasm_api.c:1296-1321 | for names without NULs a lookup gives what enumerating the live headers and taking the first of that name gives |
| HeaderLookup.CallResponseHeader | src/http/ngx_http_wasm_api.c:1384-1421 | the first case-insensitive match among the headers of a callout's response |
| LocalResponse.Reply.SetRespHeader | src/http/ngx_http_wasm_api.c:431-480 | a pair named :status, in any case, sets the status to its number as an int32_t, any other pair is set as a header, if lua-nginx-module answers NGX_OK; NGX_DECLINED sets nothing and counts as success, and a failure sets nothing |
| LocalResponse.Reply.SetHeaders | src/http/ngx_http_wasm_api.c:739-757 | on a buffer of any content: of the pairs before the first one that fails exactly those answered NGX_OK are set, in order, and the result is OK if and only if none fails; the walk leaves the buffer only if its numbers do not go together and no pair before that fails |
| LocalResponse.Reply.SendLocalResponse | src/http/ngx_http_wasm_api.c:720-774 | for every header map: each result with its cause, the headers set, and the code, length and body left as the protocol model says, unless the walk leaves the buffer |
| LocalResponse.SeenOfHeld | src/http/ngx_http_wasm_api.c:739-757 | in a buffer that holds a list the pairs that were set are those of the list up to the first that fails |
| LocalResponse.OkPromises | src/http/ngx_http_wasm_api.c:739-757 | if no pair fails, every pair answered NGX_OK has set one header or one status, and all pairs are set if and only if none was declined |
| LocalResponse.StatusRoundTrip | src/http/ngx_http_wasm_api.c:856-872 | the status text a guest reads is the number without leading zeros, can be set again and means the same number |
| UnsafeBytes.BitIsUnsafe | src/http/ngx_http_wasm_api.c:166-202 | the bit table marks %00-%08, %0A-%1F and %7F and no other byte |
| UnsafeBytes.CheckUnsafeUriBytes | src/http/ngx_http_wasm_api.c:166-202 | refuses with the first unsafe byte, or accepts exactly the strings without one |
| UnsafeBytes.CheckUnsafeMethod | src/http/ngx_http_wasm_api.c:205-221 | refuses with the first byte that is no letter, or accepts exactly the strings of letters |
| GuestMemory.Vm.Call | src/vm/wasmtime.c:263-284 | a call of a plugin makes it the current one; a call without a plugin goes to the current one and changes no other memory |
| GuestMemory.Vm.Follow | src/vm/wasmtime.c:279-283 | after the calls of a run the current plugin is the one of the last call that named one |
| GuestMemory.Vm.MemoryAlloc | src/proxy_wasm/proxy_wasm_memory.c:25-39 | malloc is asked only when proxy_on_memory_allocate gives 0 or is absent |
| GuestMemory.Vm.CopyToWasm | src/http/ngx_http_wasm_api.c:224-264 | OK if and only if everything is in bounds and a block is granted; then the guest's cells describe a block with the data, and no other byte the allocator left is changed |
| GuestMemory.Vm.GetBufToWrite | src/http/ngx_http_wasm_api.c:267-302 | hands out a block if and only if it and both cells are in bounds, and changes the two cells only |
| GuestMemory.Vm.GetBufferBytes | src/http/ngx_http_wasm_api.c:651-709 | by the number of the type: 0 and 1 deliver of the body of the current state, 4 of the body of the callout's response, the bytes from start that are there, at most size of them, and 7 the whole configuration; where the sum is no int32_t what lies behind the body goes out as well; other types and every other case have their result |
| GuestMemory.ClampIsExactIff | src/http/ngx_http_wasm_api.c:700-702 | the copy stays inside the buffer, and is what the guest may have, if and only if start + size is an int32_t |
| GuestMemory.StoresDeliver | src/http/ngx_http_wasm_api.c:249-263 | a block and an address cell apart from each other and from the size cell describe the data |
| GuestMemory.MapReachesGuest | src/http/ngx_http_wasm_api.c:267-302 | a map written into the block handed out is found by the guest through its two cells, with its size |
| GuestMemory.SharedCell | src/http/ngx_http_wasm_api.c:224-302 | the two transfers store their cells in opposite orders |
| Callout.EveryEntryGoesSomewhere | src/http/ngx_http_wasm_call.c:131-183 | headers emitted, pseudo headers and empty keys add up to the map's length, so headers and terminator fit into n + 1 slots |
| Callout.SameNoCaseIsLower | src/http/ngx_http_wasm_call.c:148-149 | on names without NULs the comparison is equality of lower-cased names |
| Callout.Recognize | src/http/ngx_http_wasm_call.c:132-175 | the scan of the table finds the kind of each key that is inside the map: empty, one of the four pseudo headers in any case, or plain, which other names with a colon are, too; or it leaves the map |
| Callout.KindOfName | src/http/ngx_http_wasm_call.c:31-37 | a name is that of :path, :method, :scheme or :authority if and only if it is so lower-cased |
| Callout.CallGet | src/http/ngx_http_wasm_call.c:111-192 | stays inside the map if and only if the lengths of all entries are inside and as much of each key as tells its kind; then hands out, by pointer and length, the remaining headers in order with :authority as host, marks the end, and lets the last of repeated pseudo headers win |
| Callout.ReadExactlyWhen | src/http/ngx_http_wasm_call.c:129-183 | what ngx_http_wasm_call_get looks at and what Lua reads afterwards are there if and only if what is made use of is |
| Callout.HeldIsRead | src/proxy_wasm/proxy_wasm_map.c:45-65 | in a buffer that holds a list all can be read, and the entries are that list |
| Callout.EmptyKeyNeedsNoValue | src/http/ngx_http_wasm_call.c:132-134 | a map that holds no list and is read all the same: the value of an entry with an empty key is not looked at |
| Callout.ReplacedNeedsNoValue | src/http/ngx_http_wasm_call.c:151-155 | another one: the value of a pseudo header that is given again is not looked at, even if its length is negative |
| Callout.CellIsFreshIffPresent | lib/resty/proxy-wasm.lua:126-131 | the value of a pseudo header is independent of earlier callouts if and only if the map has it |
| Callout.GroupHeaders | lib/resty/proxy-wasm.lua:162-185 | the scan succeeds if and only if all keys and values up to the terminator can be read; then the table holds for each key its values in list order, none lost or added |
| Callout.InsertGroups | lib/resty/proxy-wasm.lua:174-183 | inserting a header keeps the grouping |
| Callout.UriShape | lib/resty/proxy-wasm.lua:141-155 | the URI has a scheme, http by default, and exactly the one slash between host and path that the guest's path may or may not bring |
| Callout.SendHttpCall | lib/resty/proxy-wasm.lua:134-210 | for a map of any size and content: a request is sent if and only if all lengths, all keys, the values of all headers and the last value of each pseudo header are inside the map, and what is left of earlier callouts in the cells of absent pseudo headers can be read; then its method is the last value of :method or GET, its URI is made of the last :scheme, the upstream and the last :path, and the headers are all other entries in order, :authority as host; body and timeout are those of the call |
| Callout.FlattenAnswer | lib/resty/proxy-wasm.lua:213-253 | the response becomes one entry per value, lower-cased, and a :status entry; all writes are in bounds if and only if the buffer has one slot more than was counted |
| ResponseView.FlatEntry | lib/resty/proxy-wasm.lua:229-246 | the entries of the flattened response: for the j-th value of the k-th header the lower-cased name and the value, at the place after all values before it |
| ResponseView.StatusEntry | lib/resty/proxy-wasm.lua:248-252 | the entry after them is :status with the number of the status |
| Callout.CallResponseReachesGuest | lib/resty/proxy-wasm.lua:213-264 | with that slot the guest that asks for the headers of the response reads exactly these entries |
| ProtocolGuarantees.NextKeeps | src/http/ngx_http_wasm_call.c:57-92 | every step of every request keeps slots, ids and the code's range consistent with the history |
| ProtocolGuarantees.CalloutsAreAnsweredInTurn | src/http/ngx_http_wasm_call.c:124-126 | in every interleaving register, fetch and callback take turns per request with one id, the callback goes to the context whose driver fetched the callout, and at most one callout is outstanding |
| ProtocolGuarantees.ResponseHasContext | src/http/ngx_http_wasm_module.c:767-774 | a driver that has waited for a callout finds its HTTP context again in the protocol; that this is a live record of the module is Together.CallbackGoesToItsContext |
| Together.CallbackGoesToItsContext | src/http/ngx_http_wasm_module.c:748-794 | in every run of module and protocol together, whatever was freed, refused or finalized meanwhile: a suspended driver can be resumed, its callback carries the id of the callout, finds a live HTTP context of the request under a plugin context that is in use and whose plugin is loaded, and runs the guest; and the callout was registered for that plugin context unless a driver of the request has found one that another had left |
| Together.ContextsAgree | src/http/ngx_http_wasm_module.c:591-629 | in every such run both parts are legal runs, the HTTP contexts that the protocol knows are exactly the entries in the request's array, and a suspended driver's plugin context has its handle |
| Together.PhaseRunsInBoth | src/http/ngx_http_wasm_module.c:661-730 | a phase runs the guest in the module if and only if it does in the protocol |
| ProtocolGuarantees.SlotCounts | src/http/ngx_http_wasm_call.c:57-92 | registrations, fetches and callbacks of a request differ by the one that is pending or under way |
| ProtocolGuarantees.IdsAreDistinctBelowWrap | src/http/ngx_http_wasm_call.c:47-92 | callout ids are distinct across the worker if and only if at most 2^32 were handed out |
| ProtocolGuarantees.ResultOfEntry | src/http/ngx_http_wasm_module.c:632-658 | a callout goes before an error, an error before a local response, a local response before the guest's result |
| DriverGuarantees.ResultInNumbers | src/http/ngx_http_wasm_module.c:632-658 | in plain numbers: 1 if the slot was filled or some call fills it, else the guest's failure, else the code of the last response, as an int32_t, from 100 on, else the guest's result |
| DriverGuarantees.SlotFilledWhen | src/http/ngx_http_wasm_call.c:57-92 | a slot is filled after host calls if and only if it was before or one of them registers a callout, and then by the first |
| ProtocolGuarantees.ResultIsOwn | src/http/ngx_http_wasm_module.c:632-658 | with the shared code at 0, a result depends on its own request only |
| ProtocolGuarantees.StaleCodeMattersExactlyWhen | src/http/ngx_http_wasm_module.c:632-658 | the exact condition under which a code left behind decides a foreign entry |
| ProtocolGuarantees.ResultOfResponse | src/http/ngx_http_wasm_module.c:788-793 | the same priorities decide the result of a callback, which the guest's own result is not part of |
| DriverGuarantees.ResponseResultInNumbers | src/http/ngx_http_wasm_module.c:788-793 | the same for a callback, whose own result is -1 or 0 |
| ProtocolGuarantees.ResponseResultIsOwn | src/http/ngx_http_wasm_module.c:788-793 | with the shared code at 0, the result of a callback depends on its own request only |
| ProtocolGuarantees.StaleCodeMattersToResponseExactlyWhen | src/http/ngx_http_wasm_module.c:788-793 | the exact condition under which a code left behind decides a foreign callback |
| ProtocolGuarantees.CodeIsLeftExactlyWhen | src/http/ngx_http_wasm_module.c:691-694 | a step leaves a code behind if and only if its HTTP context was refused by a guest that had sent a response |
| ProtocolGuarantees.CodeIsClearBetweenEntries | src/http/ngx_http_wasm_module.c:636-639 | in a run without such steps the code is 0 between entries |
| DriverGuarantees.FirstTurn | lib/resty/proxy-wasm.lua:286-321 | how the driver goes on after the first result, as a function of slot, result and code |
| DriverGuarantees.LaterTurn | lib/resty/proxy-wasm.lua:304-321 | the same for the result of a callback |
| DriverGuarantees.FirstTurnInNumbers | lib/resty/proxy-wasm.lua:286-321 | without a callout: a failure ends the driver, a code or else a result from 100 on makes it exit with that number, 0 passes, 1 crashes and 2 to 99 spin |
| DriverGuarantees.LaterTurnInNumbers | lib/resty/proxy-wasm.lua:304-321 | the same after a callback: a failure ends the driver, a code from 100 on makes it exit with that number, anything else passes |
| DriverGuarantees.CalloutTurnWaits | lib/resty/proxy-wasm.lua:304-309 | a turn that registers a callout makes the driver wait for it, or crash if its first one has no header map, whatever else the guest does |
| DriverGuarantees.LocalResponseReachesClient | lib/resty/proxy-wasm.lua:291-303 | a last local response that is taken over reaches the client with its own code and bytes, if there is neither callout nor failure |
| DriverGuarantees.LocalResponseOfCallbackReachesClient | lib/resty/proxy-wasm.lua:291-321 | the same for a local response sent by a callback |
| DriverGuarantees.WhatResponseLeaves | src/http/ngx_http_wasm_api.c:735-770 | whatever becomes of a response its code and size are left, and its bytes only if the headers are taken, the body is in bounds and there is room; without room none, else those of before |
| DriverGuarantees.StuckExactlyWhen | lib/resty/proxy-wasm.lua:291-321 | in every run a request's driver is stuck if and only if one of its own turns met the stated condition |
| DriverGuarantees.StuckAfterTurn | lib/resty/proxy-wasm.lua:291-321 | a first turn gets stuck on a result from 1 to 99 without callout and code, a later one never spins, and either fails on a callout without a map |
| DriverGuarantees.TurnsAreBounded | lib/resty/proxy-wasm.lua:291-321 | callback turns equal the callouts sent and are at most the callouts registered, so the loop ends if the guest registers finitely many |
| DriverGuarantees.BodyIsolatedExactlyWhen | src/http/ngx_http_wasm_module.c:733-745 | the body handed out is read from its own bytes and independent of what others left if and only if a response was sent and the size announced last is 0 or covered by the bytes taken over last, no allocation having failed since |
| DriverGuarantees.BodyWhenCovered | src/http/ngx_http_wasm_module.c:733-745 | then it is as many of these bytes as the last size says |
| DriverGuarantees.LastOkBodyGoesOut | src/http/ngx_http_wasm_api.c:735-770 | after a last response answered OK, its own bytes go out, as many as it said; a negative size is answered OK, too, and read as a huge one |
| DriverGuarantees.SlotIsLeftExactlyWhen | src/http/ngx_http_wasm_module.c:691-694 | a driver's turn ends with a callout still in the slot if and only if the HTTP context was refused with one pending or the callout has no header map |
| DriverGuarantees.CalloutsStayStraightExactlyWhen | src/http/ngx_http_wasm_module.c:748-794 | in every run the callouts of a request are fetched for, and answered to, the contexts that registered them if and only if no driver found one that another context had left |
| DriverGuarantees.CallbackReadsItsResponse | src/http/ngx_http_wasm_module.c:776-786 | whatever a callback does, the response headers that it reads are its own, or none when the HTTP call failed |
| DriverGuarantees.ResponseIsReadExactlyWhen | lib/resty/proxy-wasm.lua:213-264 | in every run, what a request reads of its response after the callback: its own headers if and only if since its call was answered no other call was and no driver has sent a callout, none if and only if no call of it was answered or the last one failed, otherwise what others have left in the shared table |
| Driver.Worker.CallRegister | src/http/ngx_http_wasm_call.c:50-93 | has the specified effect: refuses a second callout, a negative timeout or missing memory, otherwise fills the slot with the next id |
| Driver.Worker.ProxyHttpCall | src/http/ngx_http_wasm_api.c:1659-1737 | OK gives the id of the registered callout, which is in the slot with its timeout; an error leaves the worker as it was, unless only the id cell was out of bounds |
| Driver.Worker.SendLocalResponse | src/http/ngx_http_wasm_api.c:735-770 | code and length are set first, the data pointer by the allocation, bytes last |
| Driver.Worker.FetchBody | src/http/ngx_http_wasm_module.c:733-745 | hands out as many bytes of the stored body as the length says, or reads a null, freed or too short allocation |
| Driver.Worker.FetchHttpCtx | src/http/ngx_http_wasm_module.c:591-629 | finds the HTTP context or has the guest accept or refuse a new one, with the host calls it makes meanwhile |
| Driver.Worker.HandleRcBeforeProxy | src/http/ngx_http_wasm_module.c:632-658 | has the specified effect and result, and resets the code |
| Driver.Worker.OnHttp | src/http/ngx_http_wasm_module.c:661-730 | has the specified effect on code, slot and result, early return included |
| Driver.Worker.OnHttpCallResp | src/http/ngx_http_wasm_module.c:748-794 | the same for the callback, with its lookup of the HTTP context and its early return |
| Driver.Worker.OnHttpRequest | lib/resty/proxy-wasm.lua:267-324 | the loop, suspended at each callout while other requests run, does exactly the steps of the protocol and ends as they say |

## Left out

- Guest memory: addresses and sizes are not negative, so the -1 that a trapping allocator yields as an address is not modelled.
- What lies outside the buffer of a guest's map: a walk that leaves the buffer ends there.
- LocalResponse.Reply.SetHeaders: what lua-nginx-module does with an accepted header or status (override, special headers) is not modelled; the calls answered NGX_OK are recorded in order.
- Serializers.RequestHeaders: the list of headers comes from lua-nginx-module and is a parameter; a request without a Host header, for which the code dereferences a null pointer, is not modelled.
- HeaderLookup.RequestHeader: a header whose value pointer is null counts as found.
- Worker.Module.LoadPlugin: _start and _initialize are one call, and the choice of the ABI version is part of what the VM answers.
- Which callbacks a guest has no code for, except in `Dangling`, where this matters for _start, proxy_on_done and proxy_on_delete only: the others always find an allocated state.
- A spinning or crashing driver takes its worker down; in `Protocol` it stops and the other requests go on, so that what is proved of them covers every run up to that moment.
- DriverGuarantees.ResponseIsReadExactlyWhen: speaks of the table that this repository's Lua code shares. Other Lua code of the worker takes the same string buffer, tables too large for it get one of their own, and these, the strings a table points to and the body live as long as Lua's collector lets them.
- Callout.SendHttpCall: a cell that keeps a pointer into the map of an earlier callout is read as that map was, although the request that owned it may be over.
- A callout that cannot be sent, because of its map, ends its driver with an error of Lua or reads outside the map; in `Protocol` that driver stays suspended until its request ends.
- The name and the parameters of a phase's callback, which depend on phase and ABI version, and the field `r` of the state.
- The check for a missing wasm_vm directive, which returns before anything else happens.
- The address of a freed record is never reused in the model, so that a dangling pointer stays visible.
- Internal redirects, which clear a request's module context: each module context is its own request.
- Calls that name no plugin (those of the guest's allocator) are not part of the recorded history; they do not move cur_plugin.
- Wasm engines: loading, linking, teardown and traps; only the current plugin and its memory are modelled.
- Pseudo header setters and properties: thin, and `:authority` is handled as a method.
- URL parsing, logging, timeouts and the HTTP client; response trailers; metrics and the stubs that return a constant.
