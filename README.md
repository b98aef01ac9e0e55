# kryocache core, modelled in Dafny

kryocache is a small Redis-like cache written in C. This project models the
following parts of it, one Dafny module per C file:

- **Client** (`client.dfy`): the client library. It covers the connection
  state machine, the non-blocking connect with its retry and exponential
  backoff loop, the single-`send`/single-`recv` command transport, the
  SET/GET/DELETE/EXISTS/FLUSH/PING operations and their statistics, and
  configuration defaults and validation.
- **Dispatcher** (`dispatcher.dfy`): the server's per-connection handler.
  It makes one bounded `recv`, trims the line end, walks the `strncmp`
  chain and sends one fixed reply.
- **BucketHash** (`bucket_hash.dfy`): the storage's string hash and its
  bucket index.
- **ServerInit** (`server_init.dfy`): `server_init`, with its staged
  allocations and the unwinding of each partial allocation on failure.
- **ArenaAllocator** (`arena.dfy`): the chunked arena allocator behind
  authentication tokens. It models first-fit reuse of old chunks, chunk
  growth, reset, age-based clean-up and destruction.
- **Tokens** (`tokens.dfy`): token parameter validation, token creation on
  the arena, token validation and the authority lookup.
- **CommandErrors** and **CommandStubs** (`command_errors.dfy`,
  `command_stubs.dfy`): the white-list command error-code table, its
  messages and the argument validators.
- **Drs** (`drs.dfy`): the dual-seed DRS random generator. It is built from
  two independent LCGs combined digit by digit, and it includes the range
  reduction.
- **CTypes** (`common.dfy`): C-level helpers shared by the modules above.
  It holds `Option`, the unsigned widths, NUL-free C strings, the
  `strlen`/NUL view of a buffer (`CStr`) and `snprintf`-style truncation.

How the C is represented:
- Objects that the C updates in place are classes whose methods modify
  their fields. These are the client instance, the arena, the DRS
  generator and the server instance.
- Each method is proved against a specification function of the old
  state. Each specification function carries its own lemmas.
- Operating-system results are parameters of the model. These include
  `inet_pton`, `socket`, `fcntl`, every `connect` attempt, `poll`,
  `getsockopt`, `send`, `recv`, `malloc`/`calloc`, `mmap`,
  `pthread_mutex_init`, `strerror` text and `time`.
- A C `char` is one Dafny `char` standing for one byte.
- Unsigned wrap-around is written out wherever the C relies on it. This
  covers the 64-bit counters, the 32-bit hash and the DRS arithmetic.

## Model

| member | source | states |
|---|---|---|
| CTypes.CStr | kryocache/src/core/client/client.c:74-116 | the C string seen in a buffer is its longest NUL-free prefix and stops exactly at the first NUL |
| CTypes.CStrAtNul | kryocache/src/core/server/commands/commands.c:18-21 | writing a NUL at position i makes the C string of the buffer the bytes before i |
| CTypes.Truncate | kryocache/src/core/client/client.c:68-69 | `snprintf` into `size` bytes keeps at most `size-1` characters, a prefix of the text, and the whole text when it fits |
| Client.InitialState | kryocache/src/core/client/client.c:668-698 | a freshly initialised client is disconnected, has socket -1 and satisfies the state invariant |
| Client.Inc | kryocache/src/core/client/include/client.h:70-78 | a `uint64_t` statistics counter increments by one and wraps to 0 after 2^64-1 |
| Client.AddU64 | kryocache/src/core/client/client.c:112-114 | the byte counters add without change while no wrap occurs |
| Client.AsInt32 | kryocache/src/core/client/client.c:449-451 | `%d` of an unsigned `max_retries` prints the value or the value minus 2^32, inside the `int` range |
| Client.Format | kryocache/src/core/client/client.c:1121-1139 | `snprintf(buf, size, …)` writes a NUL-free prefix shorter than `size`, and the whole text when it fits |
| Client.Message | kryocache/src/core/client/client.c:153-163 | a last-error message is shorter than the 256-byte field and is a prefix of lead + detail |
| Client.ConnectionComplete | kryocache/src/core/client/client.c:551-613 | a pending connect is complete only if poll reported ready, writable and SO_ERROR 0; error events, a timeout or a failed getsockopt mean not complete |
| Client.Classify | kryocache/src/core/client/client.c:296-436 | an attempt establishes iff connect returned 0, errno is EISCONN, or EINPROGRESS/EALREADY completes; it aborts iff errno is none of the listed values; the four transient errnos retry |
| Client.RetryLoop | kryocache/src/core/client/client.c:294-442 | the loop makes between k and max_retries attempts |
| Client.RetryLoopRun | kryocache/src/core/client/client.c:294-442 | every attempt before the last was retried; the loop succeeds iff the last attempt established; it stops early only on a non-retry verdict; it sleeps once per retried attempt except after the last, with `100000·2^attempt` µs |
| Client.DelaysDouble | kryocache/src/core/client/client.c:438-441 | the first delay is 100000 µs and each later delay is twice the one before |
| Client.AllRetriedExhausts | kryocache/src/core/client/client.c:423-456 | when every attempt hits a transient error, all max_retries attempts are made, the connect fails and max_retries-1 sleeps happen |
| Client.BackoffInC | kryocache/src/core/client/client.c:440 | where the C `int` expression is defined it equals the intended doubling delay |
| Client.BackoffOverflowsAt15 | kryocache/src/core/client/client.c:440 | the delay after attempt 14 is 1638400000 µs; after attempt 15 the `int` product overflows |
| Client.Establish | kryocache/src/core/client/client.c:137-457 | success iff the address parses, the socket opens, the flags read succeeds and the retry loop establishes; ERROR_PROTOCOL iff the address is invalid; the result is one of four values; success records connect and activity times; failure keeps status and stats and closes the socket; the flags failure returns raw -1 with the socket open |
| Client.ConnectSpec | kryocache/src/core/client/client.c:703-732 | connecting an already connected client changes nothing; otherwise success iff the new status is CONNECTED; failure sets status ERROR and counts one failed operation |
| Client.DisconnectSpec | kryocache/src/core/client/client.c:734-766 | disconnect always succeeds; a non-connected client is unchanged; a connected one becomes DISCONNECTED with socket -1 and connect time 0; stats and last error are kept |
| Client.DisconnectIdempotent | kryocache/src/core/client/client.c:734-766 | disconnecting twice equals disconnecting once |
| Client.ConnectThenDisconnect | kryocache/src/core/client/client.c:703-766 | a successful connect followed by disconnect returns to DISCONNECTED with socket -1 and connect time 0, counters untouched |
| Client.ConnectTwice | kryocache/src/core/client/client.c:712-716 | a second connect after a successful one is a no-op success whatever the network does |
| Client.SendCommandSpec | kryocache/src/core/client/client.c:37-121 | the guards run in source order (NULL arguments, then buffer size, then status, then command length); success updates bytes sent/received and activity; failure leaves no reply; operation counters are untouched; the state invariant is kept |
| Client.RunCommand | kryocache/src/core/client/client.c:848-866 | a connect failure is returned unchanged; otherwise the transport result is returned, operations_total is incremented, and operations_failed is incremented iff the result is not success |
| Client.SetCommand | kryocache/src/core/client/client.c:855-856 | within the key and value limits the SET command is exactly `SET key value\r\n` |
| Client.KeyCommand | kryocache/src/core/client/client.c:895 | within the key limit a key command is exactly `VERB key\r\n` |
| Client.SetSpec | kryocache/src/core/client/client.c:815-870 | NULL key/value gives ERROR_CONNECTION with no change; an over-long key or value gives ERROR_PROTOCOL before any network use; otherwise the SET command is run |
| Client.KeySpec | kryocache/src/core/client/client.c:918-990 | NULL key gives ERROR_CONNECTION; an over-long key gives ERROR_PROTOCOL; otherwise `VERB key\r\n` is run |
| Client.GetSpec | kryocache/src/core/client/client.c:872-886 | a NULL or zero-sized value buffer gives ERROR_CONNECTION; otherwise GET behaves as a key command with verb GET |
| Client.Strncpy | kryocache/src/core/client/client.c:906 | `strncpy` writes exactly n bytes whose C string is the source cut to n |
| Client.GetValueFits | kryocache/src/core/client/client.c:904-908 | the value buffer after GET holds a NUL-terminated prefix of the reply, at most buffer_size-1 long |
| Client.LongSetRefused | kryocache/src/core/client/client.c:63-72 | a SET whose key and value pass the client limits but whose command exceeds 4096 bytes never succeeds, and fails with INVALID_PARAM when already connected |
| Client.FailedCanExceedTotal | kryocache/src/core/client/client.c:722-729 | a failed connect inside SET counts a failed operation but no total operation |
| Client.ConfigDefault | kryocache/src/core/client/client.c:1106-1115 | the default config is host ::1, port 6898, timeout 5000 ms, 3 retries, auto-reconnect on |
| Client.ConfigValidate | kryocache/src/core/client/client.c:1117-1144 | valid iff config non-NULL, host non-NULL and non-empty, port 1..65535 and timeout non-zero; an error text is written iff invalid and the buffer is non-empty, and it fits the buffer |
| Client.DefaultConfigValid | kryocache/src/core/client/client.c:1106-1144 | the default configuration validates |
| Client.ResultToString | kryocache/src/core/client/client.c:1146-1165 | every result has a non-empty text; the text is "Success" iff the result is success |
| Client.ResultTextsDistinct | kryocache/src/core/client/client.c:1146-1165 | the six named results have distinct texts; INVALID_PARAM and unlisted codes both map to "Unknown error" |
| Client.ClientInstance.constructor | kryocache/src/core/client/client.c:668-698 | a new instance holds the config and the initial state |
| Client.Init | kryocache/src/core/client/client.c:649-701 | an instance is returned iff the config is non-NULL and the allocation and mutex initialisation succeed; it is fresh, in the initial state |
| Client.GetLastError | kryocache/src/core/client/client.c:1086-1093 | the text is non-empty; it is the stored last error when that is non-empty, and "No error" for a NULL client or an empty last error |
| Client.EstablishConnection | kryocache/src/core/client/client.c:137-457 | the in-place connect sequence produces exactly the result, state and sleeps of Establish |
| Client.ConnectLoop | kryocache/src/core/client/client.c:294-442 | the `for` loop over attempts agrees with RetryLoop (established flag and delays) and changes at most the last error |
| Client.Connect | kryocache/src/core/client/client.c:703-732 | NULL gives ERROR_CONNECTION; otherwise the instance moves as ConnectSpec says |
| Client.Disconnect | kryocache/src/core/client/client.c:734-766 | NULL gives ERROR_CONNECTION; otherwise the instance moves as DisconnectSpec says |
| Client.Destroy | kryocache/src/core/client/client.c:768-796 | destroying disconnects first |
| Client.SendCommand | kryocache/src/core/client/client.c:37-121 | the instance moves as SendCommandSpec says; the response buffer receives the NUL-terminated reply on success and is untouched otherwise |
| Client.RunCommandOn | kryocache/src/core/client/client.c:848-866 | the in-place connect/send/count sequence equals RunCommand |
| Client.Set | kryocache/src/core/client/client.c:815-870 | NULL client gives ERROR_CONNECTION; otherwise the instance moves as SetSpec says |
| Client.KeyOperation | kryocache/src/core/client/client.c:918-990 | the instance moves as KeySpec says |
| Client.Delete | kryocache/src/core/client/client.c:918-953 | the instance moves as KeySpec with verb DELETE says |
| Client.Exists | kryocache/src/core/client/client.c:955-990 | the instance moves as KeySpec with verb EXISTS says |
| Client.Get | kryocache/src/core/client/client.c:872-916 | the instance moves as GetSpec says; on success the buffer holds the reply cut to buffer_size-1 and NUL-terminated; otherwise it is untouched |
| Client.Flush | kryocache/src/core/client/client.c:992-1017 | the instance moves as RunCommand with `FLUSH\r\n` says |
| Client.Ping | kryocache/src/core/client/client.c:1019-1044 | the instance moves as RunCommand with `PING\r\n` says |
| Dispatcher.StrnEqualExact | kryocache/src/core/server/commands/commands.c:62 | `strncmp` over the literal plus its terminator is string equality |
| Dispatcher.StrnEqualPrefix | kryocache/src/core/server/commands/commands.c:83 | `strncmp` over the literal's own length is a prefix test |
| Dispatcher.ReplyByPrefix | kryocache/src/core/server/commands/commands.c:62-111 | the reply chain: PING and STATS only as whole commands; FLUSH, `SET `, `GET `, `DELETE `, `EXISTS ` as prefixes, first match wins; anything else is the unknown-command error |
| Dispatcher.Reply | kryocache/src/core/server/commands/commands.c:62-111 | the reply chain answers every command, known or not, with one of the six fixed texts, each a single line ending in CRLF |
| Dispatcher.TrimLineEnd | kryocache/src/core/server/commands/commands.c:21-31 | the trim yields a prefix of the input, at most two bytes shorter |
| Dispatcher.HandlerEffects | kryocache/src/core/server/commands/commands.c:4-118 | a connection ends with close; exactly one reply is sent iff recv returned data |
| Dispatcher.LineEndsAccepted | kryocache/src/core/server/commands/commands.c:21-31 | a command followed by CRLF, LF, CR or nothing is seen as the same command |
| Dispatcher.TrimmedLineEnds | kryocache/src/core/server/commands/commands.c:21-31 | the trim removes exactly the appended line end |
| Dispatcher.DoubleLineFeedUnknown | kryocache/src/core/server/commands/commands.c:21-31 | only one line feed is removed, so "PING\n\n" is an unknown command |
| Dispatcher.EmbeddedNulIgnored | kryocache/src/core/server/commands/commands.c:18-21 | bytes after an embedded NUL are ignored |
| Dispatcher.TrimInPlace | kryocache/src/core/server/commands/commands.c:21-31 | the in-place NUL writes leave the buffer's C string equal to TrimLineEnd of the received bytes |
| Dispatcher.HandleClientConnection | kryocache/src/core/server/commands/commands.c:4-118 | the buffer-based handler produces exactly HandlerEffects |
| BucketHash.SignedChar | kryocache/src/core/server/commands/include/commands.h:25 | a `char` byte enters the sum as a signed value congruent to the byte |
| BucketHash.HashFold | kryocache/src/core/server/commands/include/commands.h:22-26 | the hash is an unsigned 32-bit value |
| BucketHash.BitAndBound | kryocache/src/core/server/commands/include/commands.h:28 | `h & m` never exceeds m |
| BucketHash.BitAndIdempotent | kryocache/src/core/server/commands/include/commands.h:28 | masking twice equals masking once |
| BucketHash.MaskClearsLowBits | kryocache/src/core/server/commands/include/commands.h:28 | `h & 1000` is 8 times `(h/8) & 125`, so it is a multiple of 8 |
| BucketHash.BucketIndex | kryocache/src/core/server/commands/include/commands.h:28 | the index is at most 1000, a multiple of 8 and a submask of 1000 |
| BucketHash.Hash | kryocache/src/core/server/commands/include/commands.h:22-29 | the byte loop computes the masked fold of the key |
| BucketHash.EmptyKeyBucket | kryocache/src/core/server/commands/include/commands.h:22-29 | the empty key hashes to 0 in bucket 0 |
| BucketHash.HashOfShortKeys | kryocache/src/core/server/commands/include/commands.h:22-26 | one- and two-byte ASCII keys hash to c1 and c1·31+c2 |
| BucketHash.SmallHashReachable | kryocache/src/core/server/commands/include/commands.h:22-26 | every hash value 1..999 is produced by some non-empty key |
| BucketHash.EverySubmaskOccurs | kryocache/src/core/server/commands/include/commands.h:22-29 | every non-zero submask of 1000 is the bucket of some key |
| BucketHash.ReachableIndex | kryocache/src/core/server/commands/include/commands.h:22-29 | every submask of 1000, zero included, is the bucket of some key |
| BucketHash.SubmasksExactly | kryocache/src/core/server/commands/include/commands.h:28 | the submasks built bit by bit are exactly the values that `& b` leaves unchanged |
| BucketHash.SubmasksCount | kryocache/src/core/server/commands/include/commands.h:28 | a mask with k set bits has 2^k submasks |
| BucketHash.FixedPointsCount | kryocache/src/core/server/commands/include/commands.h:28 | the values that `& b` leaves unchanged number 2 to the count of set bits of b |
| BucketHash.OnesOfIndexMask | kryocache/src/core/server/commands/include/commands.h:28 | the mask 1000 has six set bits |
| BucketHash.IndexMaskFixedPoints | kryocache/src/core/server/commands/include/commands.h:28 | exactly 64 values are left unchanged by `& 1000` |
| BucketHash.EveryFixedPointReachable | kryocache/src/core/server/commands/include/commands.h:22-29 | each of those 64 values is the bucket of some key |
| BucketHash.BucketIndexCount | kryocache/src/core/server/commands/include/commands.h:15-29 | the bucket index takes exactly 64 distinct values: every key lands on one of the 64 submasks of 1000, and each of them is the bucket of some key; one of them is 1000, past the end, so only 63 of the 1000 bucket heads are ever used |
| BucketHash.IndexOutOfBounds | kryocache/src/core/server/commands/include/commands.h:15-28 | the key ">f" hashes to 2024 and gets index 1000, one past the last of the 1000 buckets |
| BucketHash.BucketIndexFixed | kryocache/src/core/server/commands/include/commands.h:15 | a corrected index is below 1000 and is the hash itself when the hash is already below 1000 |
| BucketHash.EveryBucketReachableFixed | kryocache/src/core/server/commands/include/commands.h:15 | with the corrected index every one of the 1000 buckets is reachable |
| ServerInit.Acquired | kryocache/src/core/server/server.c:27-88 | the steps before the first failing allocation all succeeded and the next one failed |
| ServerInit.AcquiresCount | kryocache/src/core/server/server.c:27-88 | the acquisition trace acquires each resource as often as it appears and releases nothing |
| ServerInit.ReleasesCount | kryocache/src/core/server/server.c:40-87 | the unwinding trace releases each acquired resource as often as it appears |
| ServerInit.ReleasesOnly | kryocache/src/core/server/server.c:40-87 | unwinding releases in the reverse order of acquisition |
| ServerInit.ReleaseAllBalanced | kryocache/src/core/server/server.c:40-87 | acquiring and then unwinding distinct resources leaves each acquired and released equally often, at most once |
| ServerInit.FailedInitBalanced | kryocache/src/core/server/server.c:19-94 | a failed initialisation releases every resource it acquired, exactly once |
| ServerInit.SuccessfulInitHoldsAll | kryocache/src/core/server/server.c:19-94 | a successful initialisation holds all six resources and releases none |
| ServerInit.InitTraceAcquiresFirst | kryocache/src/core/server/server.c:19-94 | every trace is some acquisitions followed by their reverse releases |
| ServerInit.EarlyFailureTraces | kryocache/src/core/server/server.c:27-54 | the exact trace for a failure of the server, storage or bucket allocation |
| ServerInit.LateFailureTraces | kryocache/src/core/server/server.c:56-88 | the exact trace for a failure of the storage lock, client table or client lock |
| ServerInit.SuccessTrace | kryocache/src/core/server/server.c:19-94 | a full success acquires the six resources in source order |
| ServerInit.NewBuckets | kryocache/src/core/server/server.c:48 | `calloc` of the bucket heads gives that many empty chains |
| ServerInit.NewClients | kryocache/src/core/server/server.c:68 | `calloc` of the client table gives zeroed contexts |
| ServerInit.Storage.constructor | kryocache/src/core/server/server.c:37-48 | the storage holds the empty bucket array |
| ServerInit.ServerInstance.constructor | kryocache/src/core/server/server.c:33-91 | the instance holds the config, empty storage, the zeroed client table and the initial status, fd, counts and error text |
| ServerInit.Init | kryocache/src/core/server/server.c:19-94 | the trace is InitTrace; an instance is returned iff the config is non-NULL and every step succeeds; it is then fully initialised |
| ArenaAllocator.AlignSize | kryocache/src/core/data/tokens/core/core.c:103-106 | the aligned size is a multiple of the alignment and below size + alignment |
| ArenaAllocator.AlignSizeLeast | kryocache/src/core/data/tokens/core/core.c:103-106 | the aligned size is the least aligned value at least size, and aligning is idempotent |
| ArenaAllocator.NewChunkSize | kryocache/src/core/data/tokens/core/core.c:113-131 | the new chunk size is the default times a power of two, capped at the maximum; the default for small requests; large enough for any request up to the maximum; the least such doubling |
| ArenaAllocator.CalculateNewChunkSize | kryocache/src/core/data/tokens/core/core.c:113-131 | the doubling loop computes NewChunkSize |
| ArenaAllocator.PageRound | kryocache/src/core/data/tokens/core/core.c:47-79 | the mapped size is the least multiple of the page size that holds the request: page-aligned and less than one page more than requested |
| ArenaAllocator.CreateChunk | kryocache/src/core/data/tokens/core/core.c:47-79 | a chunk is created iff the size is non-zero and the mapping succeeds; it is empty, stamped now, and its size is the request rounded up to whole pages |
| ArenaAllocator.WithinSizeConcat | kryocache/src/core/data/tokens/core/core.c:159-209 | every chunk is within its size in a joined list iff it is in both parts |
| ArenaAllocator.SumsAppend | kryocache/src/core/data/tokens/core/core.c:321-332 | used and size totals add over joined lists |
| ArenaAllocator.RemoveAt | kryocache/src/core/data/tokens/core/core.c:163-168 | unlinking a chunk removes exactly its used bytes and size from the totals |
| ArenaAllocator.FirstFit | kryocache/src/core/data/tokens/core/core.c:155-173 | the chosen old chunk has room, and no earlier one does; none is chosen iff none has room |
| ArenaAllocator.FindReusable | kryocache/src/core/data/tokens/core/core.c:155-173 | the list walk finds FirstFit |
| ArenaAllocator.FirstFitIsFirst | kryocache/src/core/data/tokens/core/core.c:155-173 | FirstFit is exactly the first chunk with room |
| ArenaAllocator.YoungExactly | kryocache/src/core/data/tokens/core/core.c:259-286 | clean-up keeps exactly the old chunks no older than max_age, and all of them when none is older |
| ArenaAllocator.YoungShrinks | kryocache/src/core/data/tokens/core/core.c:259-286 | clean-up never grows the list or its totals |
| ArenaAllocator.Refill | kryocache/src/core/data/tokens/core/core.c:153-210 | refill installs a current chunk without changing total_used, and fails iff no old chunk fits and the mapping fails |
| ArenaAllocator.AllocAccounting | kryocache/src/core/data/tokens/core/core.c:139-220 | a request of 0 or above the maximum fails with no change; a successful allocation adds the aligned size to total_used and to the current chunk |
| ArenaAllocator.RetireSums | kryocache/src/core/data/tokens/core/core.c:176-184 | retiring the current chunk keeps it when used and destroys it when empty, with matching counts and totals |
| ArenaAllocator.HeldParts | kryocache/src/core/data/tokens/core/core.c:321-341 | the held chunks are the old chunks plus the current one, with matching totals |
| ArenaAllocator.AllocPreservesValid | kryocache/src/core/data/tokens/core/core.c:139-220 | every allocation keeps the arena invariant: each chunk within its size, total_used covers the bytes used, chunk_count matches the chunks, total_allocated covers them |
| ArenaAllocator.ResetPreservesValid | kryocache/src/core/data/tokens/core/core.c:226-252 | reset empties every chunk, zeroes total_used and keeps the invariant |
| ArenaAllocator.CleanupPreservesValid | kryocache/src/core/data/tokens/core/core.c:259-286 | clean-up keeps the invariant; a non-positive max_age changes nothing; otherwise exactly the young old chunks remain |
| ArenaAllocator.Arena.constructor | kryocache/src/core/data/tokens/core/core.c:21-40 | a new arena has no chunks and zero totals, and is valid |
| ArenaAllocator.Init | kryocache/src/core/data/tokens/core/core.c:21-40 | an arena is returned iff allocation succeeds; it is fresh, empty and valid |
| ArenaAllocator.Alloc | kryocache/src/core/data/tokens/core/core.c:139-220 | a NULL arena gives NULL; otherwise the arena moves as AllocStep says and stays valid |
| ArenaAllocator.RefillCurrent | kryocache/src/core/data/tokens/core/core.c:153-210 | the in-place refill equals Refill |
| ArenaAllocator.RetireCurrent | kryocache/src/core/data/tokens/core/core.c:176-184 | the in-place retirement equals Retire |
| ArenaAllocator.Reset | kryocache/src/core/data/tokens/core/core.c:226-252 | the arena moves as ResetState says |
| ArenaAllocator.CleanupOld | kryocache/src/core/data/tokens/core/core.c:259-286 | the arena moves as CleanupState says |
| ArenaAllocator.Destroy | kryocache/src/core/data/tokens/core/core.c:292-314 | every held chunk is released exactly once |
| ArenaAllocator.GetTotalUsed | kryocache/src/core/data/tokens/core/core.c:321-323 | NULL gives 0; for a valid arena the result covers the bytes used in all chunks |
| ArenaAllocator.GetTotalAllocated | kryocache/src/core/data/tokens/core/core.c:330-332 | NULL gives 0; for a valid arena the result covers the sizes of all chunks |
| ArenaAllocator.GetChunkCount | kryocache/src/core/data/tokens/core/core.c:339-341 | NULL gives 0; for a valid arena the result is the number of chunks held |
| Tokens.StrcpyBytes | kryocache/src/core/data/tokens/core/example.c:30-45 | `safe_strcpy` writes min(len, size-1) bytes and a NUL; the result reads as the truncated source |
| Tokens.ExactCopy | kryocache/src/core/data/tokens/core/example.c:193-264 | with a destination of strlen+1 bytes the copy is exact |
| Tokens.CopyChars | kryocache/src/core/data/tokens/core/example.c:30-45 | the first n bytes are copied and the rest of the destination is untouched |
| Tokens.SafeStrcpy | kryocache/src/core/data/tokens/core/example.c:30-45 | NULL or zero size fails with nothing written; otherwise the destination holds the truncated source and NUL, and the result says whether nothing was cut |
| Tokens.ValidateTokenParams | kryocache/src/core/data/tokens/core/example.c:54-76 | valid iff the id is non-NULL and 1..256 bytes, and the optional user id and username are at most 256 bytes |
| Tokens.ValidateTimestamps | kryocache/src/core/data/tokens/core/example.c:85-115 | valid iff 0 < issued_at < expires_at and, when checked, the token has not expired |
| Tokens.FutureIssueAccepted | kryocache/src/core/data/tokens/core/example.c:85-115 | an issue time in the future is accepted |
| Tokens.ValidateAuthorities | kryocache/src/core/data/tokens/core/example.c:170-180 | the loop accepts iff every authority is non-NULL, non-empty and at most 128 bytes |
| Tokens.AuthoritySizes | kryocache/src/core/data/tokens/core/example.c:276-278 | one allocation request per authority of strlen+1 bytes |
| Tokens.AllocAllValid | kryocache/src/core/data/tokens/core/example.c:183-291 | any run of arena allocations keeps the arena invariant |
| Tokens.AllocAllAccounting | kryocache/src/core/data/tokens/core/example.c:183-291 | a successful run adds the aligned sizes to total_used; with mapping available it succeeds iff every request is 1..1 MiB |
| Tokens.AllocAllFailsAt | kryocache/src/core/data/tokens/core/example.c:183-291 | one request above 1 MiB anywhere makes the run fail |
| Tokens.AllocNext | kryocache/src/core/data/tokens/core/example.c:183-187 | one arena allocation is the first step of the run |
| Tokens.AllocOptional | kryocache/src/core/data/tokens/core/example.c:200-235 | an optional string is allocated only when present |
| Tokens.Created | kryocache/src/core/data/tokens/core/example.c:237-299 | the created token records the requested authority count (its fields are the request's, see CreatedTokenValid and CreatedTokenAuthorities) |
| Tokens.AllocFields | kryocache/src/core/data/tokens/core/example.c:183-235 | the struct and string allocations follow the run's first steps |
| Tokens.AllocAuthorities | kryocache/src/core/data/tokens/core/example.c:266-291 | the array and per-authority allocations follow the run; on success the copies are the given authorities |
| Tokens.AuthoritySizesFrom | kryocache/src/core/data/tokens/core/example.c:276-278 | the requests for a suffix are its head's request followed by the rest |
| Tokens.AllocAuthorityCopies | kryocache/src/core/data/tokens/core/example.c:276-291 | the per-authority loop follows the run and copies every authority |
| Tokens.TokenDataCreateEx | kryocache/src/core/data/tokens/core/example.c:134-302 | a rejected request returns NULL and leaves the arena alone; an accepted one performs exactly the allocation run and returns a token iff every allocation succeeds; a token returned is the faithful copy |
| Tokens.TokenValidate | kryocache/src/core/data/tokens/core/example.c:328-376 | the checks decide TokenValid: non-NULL, non-empty id, positive and ordered timestamps, not expired, array and count consistent, every authority non-empty |
| Tokens.TokenHasAuthority | kryocache/src/core/data/tokens/core/example.c:384-396 | the loop finds the authority iff some slot holds an equal string |
| Tokens.CreatedTokenValid | kryocache/src/core/data/tokens/core/example.c:298-376 | a created token validates exactly until its expiry |
| Tokens.CreatedTokenAuthorities | kryocache/src/core/data/tokens/core/example.c:266-396 | a created token has an authority iff it was given it |
| Tokens.CreationErrorCases | kryocache/src/core/data/tokens/core/example.c:445-532 | the error cases are rejected: NULL arena, NULL or empty id, expiry before issue, 150 authorities, NULL array with count 5, expired under the check, a 299-byte id; the baseline request is accepted |
| Tokens.LongDeviceHashFails | kryocache/src/core/data/tokens/core/example.c:219-226 | a device hash of 1 MiB or more makes creation fail at its allocation |
| CommandErrors.GetErrorMessage | kryocache/white_list/client/command_errors.c:59-72 | each known code maps to its own message; a code has the unknown message iff it is not in the table |
| CommandErrors.ErrorCodeToString | kryocache/white_list/client/command_errors.c:82-95 | each known code maps to its own name; a code has the unknown name iff it is not in the table |
| CommandErrors.ErrorAndSuccessDisjoint | kryocache/white_list/client/command_errors.c:74-80 | a code is an error iff negative and a success iff 0; no code is both; each known code is exactly one |
| CommandErrors.MessageOfGetterCode | kryocache/white_list/client/command_errors.c:35-72 | each getter's code maps back to that getter's message and name |
| CommandErrors.MessagesInjective | kryocache/white_list/client/command_errors.c:47-72 | distinct known codes have distinct messages, none the unknown one |
| CommandErrors.NamesInjective | kryocache/white_list/client/command_errors.c:82-95 | distinct known codes have distinct names, none the unknown one |
| CommandStubs.ValidateKey | kryocache/white_list/client/command_stubs.c:6-8 | valid iff there is exactly one argument, non-NULL and non-empty |
| CommandStubs.ValidateKv | kryocache/white_list/client/command_stubs.c:10-12 | valid iff there are exactly two arguments and the key is non-NULL and non-empty, the value non-NULL |
| CommandStubs.ValidateKeys | kryocache/white_list/client/command_stubs.c:14-20 | valid iff there are 1..5 arguments, each non-NULL and non-empty |
| CommandStubs.ValidateAuth | kryocache/white_list/client/command_stubs.c:22-24 | authentication arguments are validated as a single key |
| CommandStubs.KeyImpliesKeys | kryocache/white_list/client/command_stubs.c:6-20 | a valid single key is a valid key list and not a valid key-value pair |
| CommandStubs.StubCodesDistinct | kryocache/white_list/client/command_stubs.c:27-37 | success is 0 and the ten error getters return -1..-10, all distinct |
| CommandStubs.StubCodesAgainstTable | kryocache/white_list/client/command_stubs.c:27-37 | the first eight stub codes agree with the error table; codes -9 and -10 have the unknown message and name |
| Drs.Lcg1 | third-party/drs-generator/src/core/drs_generator.c:4-8 | the first LCG is `(1103515245·s + 12345) mod 2^31`; the 64-bit wrap does not change it |
| Drs.Lcg2 | third-party/drs-generator/src/core/drs_generator.c:12-16 | the second LCG is `(1664525·s + 1013904223) mod 2^32` |
| Drs.DigitsLE | third-party/drs-generator/src/core/drs_generator.c:24-36 | the decimal digits, least significant first, are each below 10, and there are none only for 0 |
| Drs.CombineBound | third-party/drs-generator/src/core/drs_generator.c:45-53 | n mixed digits form a number below 10^n |
| Drs.CombineDigits | third-party/drs-generator/src/core/drs_generator.c:45-53 | decimal digit i of the result is `(a_i + b_i + index mod 10) mod 10` |
| Drs.Uint64Digits | third-party/drs-generator/src/core/drs_generator.c:26-36 | a 64-bit value has at most 20 digits, so the 20-slot arrays never fill early |
| Drs.CombineBelowTenPow10 | third-party/drs-generator/src/core/drs_generator.c:19-56 | for LCG outputs (below 10^10) the result is below 10^10 and the 64-bit wrap never applies |
| Drs.CombineStepWrapped | third-party/drs-generator/src/core/drs_generator.c:52 | `result*10 + combined` in 64-bit arithmetic keeps the running value mod 2^64 |
| Drs.ExtractDigits | third-party/drs-generator/src/core/drs_generator.c:24-36 | the extraction loop fills the array with DigitsLE |
| Drs.MixDigits | third-party/drs-generator/src/core/drs_generator.c:39-53 | the mixing loop computes the combination of the digit arrays over max(count_a, count_b, 1) positions, mod 2^64 |
| Drs.NonlinearlyCombine | third-party/drs-generator/src/core/drs_generator.c:19-56 | the C function computes the digit-wise combination of a and b |
| Drs.ScaleToRange | third-party/drs-generator/src/core/drs_generator.c:89-101 | the bounds are swapped when reversed; the result is min + v mod (max-min+1), inside the range; it divides by zero iff the range is all of uint64 |
| Drs.FullRangeDividesByZero | third-party/drs-generator/src/core/drs_generator.c:98-99 | `drs_range(g, 0, UINT64_MAX)` and its reverse take a remainder by zero |
| Drs.ScaleToRangeFixed | third-party/drs-generator/src/core/drs_generator.c:89-101 | the corrected reduction always lies in the range and agrees with the original wherever that is defined |
| Drs.DrsGenerator.Lcg1Next | third-party/drs-generator/src/core/drs_generator.c:4-8 | the first seed advances by Lcg1 and is returned |
| Drs.DrsGenerator.Lcg2Next | third-party/drs-generator/src/core/drs_generator.c:12-16 | the second seed advances by Lcg2 and is returned |
| Drs.DrsGenerator.Next | third-party/drs-generator/src/core/drs_generator.c:70-86 | the counter wraps up by one, each seed advances by its own LCG, and the output is the combination of the new seeds with the counter, below 10^10 |
| Drs.DrsGenerator.Init | third-party/drs-generator/src/core/drs_generator.c:58-67 | after the warm-up the counter is 10 and each seed is its LCG applied ten times |
| Drs.DrsGenerator.Range | third-party/drs-generator/src/core/drs_generator.c:89-101 | one generator step, then ScaleToRange of its output |
| Drs.SameSeedsSameSequence | third-party/drs-generator/src/core/drs_generator.c:58-86 | two generators with the same seeds produce the same n outputs, each below 10^10 |

## Left out

- Sockets, `poll`, `fcntl`, `getsockopt`, `send` and `recv` are not
  executed. Their results are fields of `Client.Environment` and
  `Dispatcher.RecvOutcome`. The address structure, `setsockopt` and socket
  timeouts are not modelled because nothing in the model depends on them.
- `strerror(errno)` is one text per call (`osText`). `time(NULL)` is a
  parameter (`now`). `usleep` is recorded as the sequence of delays.
- Threads and mutexes are not modelled. Each operation is one atomic
  step, and the mutex-initialisation results are booleans.
- Client.Ready requires a non-NULL host and at least `max_retries`
  scripted connect outcomes. `inet_pton` would dereference a NULL host,
  and the loop makes at most `max_retries` attempts.
- Client.Establish only promises the state invariant when starting from a
  non-connected state. `client_connect` always calls it in that case.
- The connection-time readings in `client_disconnect`
  (client.c:756-760) and the statistics getters (client.c:1064-1071)
  compute floating-point seconds. They are not modelled.
- Accessors without logic are not modelled: `client_get_status`,
  `client_is_connected`, `client_get_stats`, `client_get_config` and
  `client_init_default`.
- The second response-buffer check in `client_send_command`
  (client.c:85-91) repeats the checks at client.c:42 and client.c:49 and
  can never fail after them, so it is not modelled.
- Arena chunks are values. `mmap`, `munmap` and the page size are
  parameters (`mapped`, `pageSize`), and a chunk's memory contents are not
  tracked.
- One `mapped` outcome applies to a whole token-creation call.
- Token strings are values rather than arena bytes, so pointer aliasing
  into the arena is not captured.
- `token_data_create` is `TokenDataCreateEx` with the expiration check
  off. It has no member of its own.
- The test drivers and `main` programs are not modelled. This covers
  `example.c` test functions other than the error cases, the white-list
  client, and the server and client mains.
- `send_response_to_client` and `cmd_system_init` in `command_stubs.c`
  only print or return a constant, so they are not modelled.
- The storage chains of key/value nodes are allocated empty and never
  read. The dispatcher's replies are fixed texts and do not consult
  storage, so storage operations beyond initialisation are not part of
  this model.

Other behaviours the model records:
- The server replies with fixed texts: `VALUE example_value`, `1`, and a
  constant STATS line. It does not consult the storage and has no
  NOT_FOUND or format error.
- The client reports NULL arguments as `CLIENT_ERROR_CONNECTION`, not as
  an invalid-parameter error.
- `char` is taken as signed, which is the x86-64 convention.
- A failed flags read in `client_establish_connection` returns a raw -1
  that is not one of the result values. The socket stays open.
- `client_result_to_string` maps `CLIENT_ERROR_INVALID_PARAM` to
  "Unknown error".
- A SET whose value passes the 1 MiB client limit, but whose command
  exceeds 4096 bytes, is refused by the transport (`LongSetRefused`).
- `operations_failed` can exceed `operations_total`
  (`FailedCanExceedTotal`).

## Findings

| source | as written | input that shows it | evidently intended | confidence | as-written member | corrected member |
|---|---|---|---|---|---|---|
| kryocache/src/core/server/commands/include/commands.h:15-28 | the bucket index is `hash & 1000` over an array of 1000 bucket heads | key ">f": hash 62·31+102 = 2024, and 2024 & 1000 = 1000, one past the last bucket | an index below 1000 that can reach every bucket (`hash % 1000`) | not executed | BucketHash.IndexOutOfBounds | BucketHash.EveryBucketReachableFixed |
| third-party/drs-generator/src/core/drs_generator.c:98-99 | `range = max - min + 1` wraps to 0 for the full 64-bit range, then `% range` divides by zero | `drs_range(g, 0, UINT64_MAX)` | the full range returns the raw value | not executed | Drs.FullRangeDividesByZero | Drs.ScaleToRangeFixed |
| kryocache/src/core/client/client.c:440 | the backoff `100000 * (1 << attempt)` is computed in `int` | `max_retries` = 17 with every attempt refused: after attempt 15 the product 3276800000 exceeds INT_MAX | a delay doubling from 100000 µs without overflow | not executed | Client.BackoffOverflowsAt15 | Client.DelaysDouble |
