# Verified model of the MTProto-to-WebSocket bridge

This project models, in Dafny, the stateful core of a Telegram MTProto proxy that relays clients over WebSocket, Cloudflare
workers, a Cloudflare proxy or plain TCP, and proves what that core promises. `dafny verify dfyconfig.toml` checks all of it.

What is modelled, file by file:

| files | what |
|---|---|
| `WsPool.dfy`, `WsPoolRuns.dfy`, `WsPoolOwnership.dfy`, `WsPoolInvariants.dfy`, `WsPoolTheorems.dfy` | the direct connection pool: the mutex-guarded object as a class, and every interleaving of get, rotate, refill and Close as a step machine whose steps are the critical sections |
| `WorkerPool.dfy` | the worker pool, in the same two forms |
| `Splitter.dfy`, `Bridge.dfy` | the packet splitter as a function and as an object over its byte buffer, and the two copying loops that encrypt emitted windows in place |
| `Crypto.dfy` | the obfuscated handshake, the relay's own init, the four ciphers, and a session relayed over one upstream |
| `Records.dfy`, `ClientHello.dfy`, `ServerHello.dfy` | the Fake TLS record layer, ClientHello grammar and parser, ServerHello flight, probe, and client recognition |
| `Admission.dfy`, `AdmissionRuns.dfy` | domain pools, cooldowns and dial reservations, and both fallback loops as concurrent threads |
| `SessionAdmission.dfy` | that a session's reservations are what two of those threads do |
| `TcpBackoff.dfy` | the table of TCP attempts and its runs |
| `Routing.dfy` | a whole session: its choice among the routes, against every environment, and the bridge over the one that serves it |
| `FakeTlsSession.dfy` | a whole session behind Fake TLS, from the client's first raw byte to its last |
| `Limits.dfy` | the file descriptor budget, and that the pools and sessions keep to it |
| `Units.dfy`, `Bytes.dfy`, `Ownership.dfy` | time, counting, backoff arithmetic; bytes, keystreams, concatenation; exclusive ownership |

How the source's world appears in the model:

- A mutex-guarded section is one atomic step, or one method of a class; the methods and the step machines share the same
  specification functions. A goroutine is a program counter. Dials, writes, clock readings, random draws and the discovery
  that a pooled connection has died are parameters or nondeterministic steps.
- Instants and durations are nanoseconds; instant 0 is the zero time.
- AES in counter mode (section 6.5 of NIST SP 800-38A) is one infinite keystream per key and IV; SHA-256 and HMAC are
  arbitrary functions. Nothing is claimed about cryptographic strength.
- A client read error is taken to be sticky: the up loop's `continue` after a read without messages
  (`src/transport.go:184`) skips the error check, so the next read has to report the error again.
- Domain normalization is an arbitrary function; it is not assumed to be idempotent.
- A refused write may have got a first part of its bytes through; how many is part of the environment.
- Two properties do not hold of the code without a condition, and the exact condition is proved. Packets come out of the
  splitter whole, whatever the chunks, if and only if the 8 MiB guard cuts into none (`FeedMatches`; `Clean` says so in terms of
  the stream and its chunks, `GuardCanCut` shows packets that are cut with chunks of any size). The twelve worker sockets of the
  descriptor budget suffice if and only if the configuration gives an address to at most six data centres, beyond the built-in
  ones, that a handshake can name (`WorkerPoolWithin`): those from 0 to 32768 (`NamedExactly`).
- The builder of the ServerHello flight expects a session id of fewer than 256 bytes, as its one caller provides; that this is
  exactly what it takes is part of `BuildServerHello`.

## Model

| member | source | states |
|---|---|---|
| `WsPool.Pool.ScheduleRefill` | src/pool.go:133-148 | registers the route once and starts a refill exactly when the pool is open, the key is not refilling, the bucket has room and the retry instant has passed |
| `WsPool.Pool.TakeFront` | src/pool.go:106-123 | one pass of get: pops the oldest connection of the key's bucket, tops the bucket up, and touches nothing once closed |
| `WsPool.SweepSplits` | src/pool.go:37-47 | a sweep keeps exactly the connections younger than 120 s whose first read has not failed and pulls out exactly the others; none is lost, none is on both sides |
| `WsPool.Pool.Rotate` | src/pool.go:150-175 | for every map order: exactly the stale connections of registered keys are pulled out, other buckets are untouched, and each registered key ends full, refilling or backing off |
| `WsPool.Pool.RefillFailed` | src/pool.go:223-236 | a failed refill doubles the key's delay between 5 s and 60 s and moves its retry instant, unless closed |
| `WsPool.Pool.RefillStore` | src/pool.go:238-247 | a dialed connection is appended under its own key and clears the backoff; after Close it is refused |
| `WsPool.Pool.CloseLocked` | src/pool.go:305-312 | Close empties all buckets into the list of connections to be closed |
| `WsPoolInvariants.InvKept` | src/pool.go:103-320 | every step of every actor keeps ownership, flags, capacity, backoff and shutdown invariants |
| `WsPoolTheorems.ExactlyOnePlace` | src/pool.go:103-249 | in every reachable state each connection ever dialed is in exactly one place: its refill, one bucket, rotated out, draining, one caller, or closed |
| `WsPoolTheorems.HandedOutOnce` | src/pool.go:103-131 | a connection handed to a caller was dialed for that caller's key, is open, is in no bucket and with no other caller |
| `WsPoolTheorems.OneRefillAndCapacity` | src/pool.go:133-249 | a key's flag is set exactly while its single refill lives, and idle plus in flight never exceeds PoolSize although check and append are separate sections |
| `WsPoolTheorems.CleanShutdown` | src/pool.go:305-320 | once Close has returned all buckets are empty, no refill or rotation lives, and every connection no caller has is closed |
| `WsPoolTheorems.ShutForGood` | src/pool.go:133-136 | after that, no run ever starts a refill, dials or fills a bucket again |
| `WsPoolTheorems.RefillBackoff` | src/pool.go:223-236 | after n failures in a row the delay is min(5·2^(n−1), 60) s, the retry instant lies that far behind the last failure, and the failures are spaced accordingly |
| `WsPoolTheorems.StartsExactly` | src/pool.go:133-148 | a step of any actor starts a refill exactly when the pool is open, the key has no refill and room, and its last failure lies the backoff behind: 5 s after one, doubled up to 60 s |
| `WsPoolTheorems.JudgeExact` | src/pool.go:37-47 | a get call hands the connection it took out exactly if its first read has not failed and it was younger than 120 s when the call began; otherwise it closes it and looks again |
| `WsPoolTheorems.RefillExact` | src/pool.go:184-247 | a refill dials exactly while the pool is open and its bucket has room; what it dialed joins the bucket's end, or is closed if the pool has closed |
| `WsPoolTheorems.RotationVisitsAll` | src/pool.go:150-166 | every non-empty bucket belongs to a registered key, so a rotation visits all idle connections; a warmup visits every configured key |
| `WsPoolTheorems.SweepExact` | src/pool.go:156-164 | a rotation leaves in a bucket exactly what is younger than 120 s at its reading of the clock and has not failed, and pulls out the rest |
| `WsPoolTheorems.SocketBound` | src/limits.go:36-43 | idle, in flight, rotated out or draining, the pool holds at most 2·PoolSize sockets per key |
| `WsPoolTheorems.AllAnswered` | src/pool.go:103-249 | every connection that is not closed counts among the pool's sockets or has been taken by exactly one get call, never both |
| `WorkerPool.Pool.TakeIdle` | src/worker_pool.go:41-63 | get removes the key's connection and only then schedules one refill |
| `WorkerPool.Pool.EndRefill` | src/worker_pool.go:71-94 | a finished dial is stored under its key, or returned for closing when the pool has closed |
| `WorkerPoolRuns.NeverIdleAndRefilling` | src/worker_pool.go:71-94 | in every reachable state a key is never both idle and refilling and has at most one refill |
| `WorkerPoolRuns.StoreFindsRoom` | src/worker_pool.go:84-94 | storing a finished dial never overwrites a live connection |
| `WorkerPoolRuns.WorkerJudgeExact` | src/worker_pool.go:53-57 | a get call hands the connection it took out exactly if that is younger than 100 s, and closes it otherwise |
| `WorkerPoolRuns.WorkerStartsExactly` | src/worker_pool.go:41-75 | a refill starts exactly when a get call takes the key's connection or a request finds none, with the pool open, a domain configured and no refill of the key under way |
| `WorkerPoolRuns.WorkersInOnePlace` | src/worker_pool.go:41-94 | every worker connection is in exactly one place, and callers get connections of their own key only |
| `WorkerPoolRuns.WorkersShut` | src/worker_pool.go:104-117 | once Close has returned, nothing is pooled or refilling and every connection not handed out is closed |
| `WorkerPoolRuns.WorkerSocketBound` | src/worker_pool.go:41-117 | prewarmed, dialing, late or draining: at most one worker socket per key |
| `WorkerPoolRuns.WorkersAnswered` | src/worker_pool.go:41-94 | every worker connection that is not closed is in one of the pool's slots or has been taken by exactly one get call, never both |
| `Splitter.NextStable` | src/splitter.go:61-114 | a verdict about a packet header is not changed by later bytes |
| `Splitter.ParseConserves` | src/splitter.go:34-48 | the reference parse keeps every byte in order and stops only at an incomplete or impossible header |
| `Splitter.PacketExact` | src/splitter.go:61-114 | what is taken for a packet of n bytes is exactly the encoding of a non-empty payload in n bytes, within 8 MiB |
| `Splitter.NeverAPacket` | src/splitter.go:61-114 | an impossible header is one that no further bytes make a packet of |
| `Splitter.Unfinished` | src/splitter.go:61-114 | while a complete header is waited on, further bytes can make a packet of it |
| `Splitter.ParseEncoded` | src/splitter.go:75-114 | packets encoded as the abridged, intermediate and padded transports prescribe, quick-ack bit and long abridged headers included, parse back one by one |
| `Splitter.FeedConserves` | src/splitter.go:13-50 | over any number of calls, guard or no guard, output plus buffer equals input, and the buffer stays within 8 MiB |
| `Splitter.FeedMatches` | src/splitter.go:13-50 | for every chunking the output is what the reference parse of the whole stream prescribes, if and only if, at each chunk, the unfinished packet and the chunk are within 8 MiB or the header at hand is impossible |
| `Splitter.ChunkIndependence` | src/splitter.go:13-50 | two ways of cutting a stream give the same packets up to the first impossible header, the same bytes, and the same final state |
| `Splitter.PacketsComeOut` | src/splitter.go:13-50 | packets sent in a row and cut into any chunks come out one by one and leave the splitter as it was, exactly unless the guard cuts into one |
| `Splitter.GuardNeverFires` | src/splitter.go:21-30 | with chunks of at most 64 KiB and packets of at most 8 MiB − 64 KiB the guard never cuts |
| `Splitter.GuardCanCut` | src/splitter.go:21-30 | once all but one byte of an 8 MiB packet have arrived, in chunks of any size, a chunk with that byte and one more makes the guard cut the packet |
| `SplitterBuffer.MsgSplitter.SplitChunk` | src/splitter.go:13-50 | the emitted windows hold exactly what the value model emits; they overlap neither each other nor what stays buffered |
| `SplitterBuffer.MsgSplitter.Flush` | src/splitter.go:52-59 | hands out exactly what is buffered and leaves nothing |
| `Bridge.SendParts` | src/transport.go:186-193 | each window is encrypted in place with the running stream and sent in order, up to the first one the sink refuses; a window they do not touch keeps its bytes |
| `Bridge.CopyReads` | src/transport.go:164-203 | reading until failure advances splitter, ciphers and messages exactly as the value model does, unless the sink refuses a message; then those before it have gone out |
| `Bridge.BridgeUp` | src/transport.go:155-216 | for every segmentation, with or without splitter, what arrives are the messages due up to the first one refused, then as much of that one as got through, and everything exactly if none is refused; the bytes are the client's, decrypted and encrypted again |
| `Bridge.UpMessagesArePackets` | src/transport.go:181-209 | if the guard leaves the stream alone and no header is impossible, each message is one packet of the reference parse and the flush the unfinished last one |
| `Bridge.BridgeDown` | src/transport.go:218-269 | the client receives the bytes of the binary messages up to the first failed read, decrypted and encrypted again, whatever the reads, up to the first chunk its side refuses and as much of that one as got through |
| `Crypto.SignedDCRestores` | src/crypto.go:175-180 | sign and magnitude carry every int16 index through, −32768 included |
| `Crypto.ProtoMatchesTag` | src/crypto.go:151-160 | the protocol number is the tag read as an integer |
| `Crypto.TryHandshake` | src/crypto.go:14-45 | accepts exactly 64-byte handshakes with a known tag; tag and signed index are those at bytes 56 to 61 once decrypted, the low byte of the index first, and the key material is kept |
| `Crypto.NamedExactly` | src/crypto.go:31-43 | the data centres that handshakes can name are exactly those from 0 to 32768 |
| `Crypto.DrawInit` | src/crypto.go:47-69 | the rejection loop returns the first draw that begins with nothing reserved |
| `Crypto.GenerateRelayInit` | src/crypto.go:47-89 | decrypted under its own key and IV the init has the given tag at 56, the index at 60, low byte first, and the padding at 62; its first 56 bytes are the accepted draw, so the exclusions survive the patched tail |
| `Bytes.XorLaws` | src/crypto.go:28-30 | combining with zero changes nothing and the order does not matter; with `XorCancel` this fixes exclusive or |
| `Crypto.ReverseBytes` | src/crypto.go:143-149 | the loop reverses |
| `Crypto.BuildCiphers` | src/crypto.go:91-134 | each cipher is the keystream its peer writes or reads in by the obfuscation rules, and the two that carry an init start at 64 |
| `Crypto.RelaySession` | src/server.go:241-332 | over one upstream, with or without a splitter: only known handshakes enter, the init goes out exactly if the upstream accepts it and says what the client's said, and each side reads what the other wrote as far as it accepts it, in the keystreams the two inits define |
| `Records.ScanRecords` | src/fake_tls.go:401-432 | any sequence of application data and change-cipher-spec records delivers its non-empty application data in order |
| `Records.DecodeComplete` | src/fake_tls.go:401-432 | every byte string is such a sequence followed by something that starts with no such record, for instance with one of another type, and delivers nothing more |
| `Records.WrappedSize` | src/fake_tls.go:355-371 | the framed size is len + 5·ceil(len/16384), within the preallocated capacity |
| `Records.ChunksCover` | src/fake_tls.go:360-364 | chunks are non-empty, at most 16384 bytes, and together the data |
| `Records.WrapRecords` | src/fake_tls.go:355-371 | the loop with patched lengths writes exactly the framed records |
| `Records.FakeTlsConn.ReadPayload` | src/fake_tls.go:401-432 | returns the next payload, or the error that follows the last one, on every byte string |
| `Records.FakeTlsConn.Read` | src/fake_tls.go:373-399 | delivers the next pending bytes, at least one; fails only when none are pending |
| `Records.FakeTlsConn.Write` | src/fake_tls.go:434-443 | frames the data once; a failed write reports nothing written |
| `Records.Drain` | src/fake_tls.go:373-399 | reads of any positive sizes together deliver every pending byte in order |
| `Records.Deliver` | src/fake_tls.go:355-443 | for all writes, all harmless records in between and all read sizes, the reader gets exactly the bytes written, then the end |
| `ClientHello.EntriesExact` | src/fake_tls.go:210-225 | the entry list of a key share decodes to exactly the one list that encodes to it |
| `ClientHello.ExtsExact` | src/fake_tls.go:191-227 | extension bytes decode to `xs` exactly when `xs` is well-formed and encodes to them |
| `ClientHello.HelloExact` | src/fake_tls.go:163-229 | a byte string decodes to `h` exactly when it encodes a well-formed `h` under the nested-length grammar |
| `ClientHello.NotesFirst` | src/fake_tls.go:221-223 | a group is noted with the length of its first share, and no other group is |
| `ClientHello.ParseShares` | src/fake_tls.go:207-226 | the inner loop accepts exactly well-formed key-share extensions and notes their shares behind those already noted |
| `ClientHello.ParseExtensions` | src/fake_tls.go:191-227 | the extension loop accepts exactly well-formed extension lists |
| `ClientHello.ParseClientHello` | src/fake_tls.go:163-229 | safe on every input; the summary of the hello it encodes, and the wholly empty result otherwise |
| `ClientHello.ParsedExactly` | src/fake_tls.go:163-229 | a non-empty result comes back exactly for encodings of well-formed hellos, of which there is only one per input |
| `ServerHello.FlightDecodes` | src/fake_tls.go:252-303 | a flight decodes, with every nested length checked, to what it was made of |
| `ServerHello.SelectSuite` | src/fake_tls.go:243-252 | the most preferred offered suite, or the default when none is offered |
| `ServerHello.BuildServerHello` | src/fake_tls.go:231-303 | for every session id the three records that are due: session echoed, offered suite, matching group and key share, clamped application data, and a random that is the HMAC over the flight without it; a client decodes that flight, every nested length checked, if and only if the session id has fewer than 256 bytes |
| `ServerHello.Probe` | src/fake_tls_profile.go:50-69 | the loop computes the probe function on every stream |
| `ServerHello.ProbeExact` | src/fake_tls_profile.go:50-69 | the probe answers n exactly for skippable records followed by an application data header of n |
| `ServerHello.ProbeOwnFlight` | src/fake_tls_profile.go:50-69 | for flights whose first record is shorter than 64 KiB, probing one's own flight gives the profile clamped to 64..16384, or the drawn size when there is no profile, exactly as long as that record has a length the probe accepts |
| `ServerHello.VerifyClientHello` | src/fake_tls.go:123-161 | lets in exactly hellos whose random is the keyed HMAC combined with a clock within 120 s, and returns random and session id |
| `Admission.UniqueIs` | src/cfproxy_domains.go:57-75 | extends the list without duplicates by exactly the non-empty normal forms |
| `Admission.AppendUnique` | src/cfproxy_domains.go:57-75 | the nested loops compute that list |
| `Admission.Config.DomainAvailable` | src/cfproxy_domains.go:328-338 | answers availability and deletes an expired cooldown on sight |
| `Admission.PreferredIs` | src/cfproxy_domains.go:305-309 | a data centre's own choice is tried first, and without one the choice made for all |
| `Admission.PromotedFirst` | src/cfproxy_domains.go:460-480 | after a promotion for a data centre, that domain is preferred there and available |
| `Admission.Config.DomainsForTry` | src/cfproxy_domains.go:297-326 | exactly the available pool members, each once, the preferred one first; expired cooldowns of the pool are dropped |
| `Admission.Config.BeginFallbackDial` | src/cfproxy_domains.go:340-363 | grants exactly members of the right pool that are not cooling and have fewer than four dials, and counts the grant |
| `Admission.Config.FinishFallbackDial` | src/cfproxy_domains.go:365-393 | gives one reservation back; success lifts the cooldown, cancellation leaves it, and a failure while none runs counts as first and bars the domain for exactly 60 s, or 300 s if its name did not resolve |
| `Admission.Config.SetDomains` | src/cfproxy_domains.go:422-458 | installs a duplicate-free pool, drops cooldowns of strangers, picks active domains from the pool and shows the chosen one as configured; reservations and worker tables stay |
| `Admission.Config.Promote` | src/cfproxy_domains.go:460-480 | a pool member becomes active for the data centre and loses its cooldown; anything else changes nothing |
| `Admission.LazyDeletion` | src/cfproxy_domains.go:328-338 | over any sequence of operations, deleting lazily gives the same answers as never deleting, then and at all later instants |
| `AdmissionRuns.CountedKept` | src/cfproxy_domains.go:340-371 | every step of both loops keeps each counter equal to the number of outstanding reservations and at most four |
| `AdmissionRuns.DialAccounting` | src/transport.go:486-536 | in every state of every run: counters equal outstanding dials, at most four, and each thread has given back all grants but the one it holds |
| `AdmissionRuns.CooldownWindow` | src/cfproxy_domains.go:355-392 | while a cooldown runs and no success, promotion or refresh lifts it, no dial is granted and no first failure reported |
| `AdmissionRuns.GrantExact` | src/cfproxy_domains.go:340-363 | a dial is granted exactly while the loop goes on, the domain is in the pool and not cooling, and fewer than four dials of it are under way |
| `AdmissionRuns.FirstFailuresApart` | src/cfproxy_domains.go:383-420 | two first failures with nothing lifting the cooldown in between are at least 60 s apart, or 300 s after a name that did not resolve |
| `SessionAdmission.ThreadKeepsBooks` | src/cfproxy_domains.go:340-393 | in every run of all threads, what one thread has reserved and given back is a first part of its round's ledger, and the whole once it is done |
| `SessionAdmission.SessionIsThreads` | src/transport.go:449-539 | the reservations of a session, in order, are what the threads of its two dialing loops do in any run that gives them the same answers |
| `TcpBackoff.Table.Begin` | src/tcp_backoff.go:35-45 | grants exactly when no attempt is under way and the retry instant has passed |
| `TcpBackoff.Table.Finish` | src/tcp_backoff.go:47-66 | success and cancellation without history delete the entry, failure doubles the delay within 30 s and 1 h |
| `TcpBackoff.Table.Connect` | src/tcp_backoff.go:68-96 | a granted attempt is always finished with the right outcome, and a connection not returned is closed |
| `TcpBackoff.StepKeeps` | src/tcp_backoff.go:35-66 | every step keeps one attempt per connecting entry and the exact memory of failures |
| `TcpBackoff.OneAttempt` | src/tcp_backoff.go:35-45 | at most one attempt per address is in flight, and no other can begin meanwhile |
| `TcpBackoff.BeginsExactly` | src/tcp_backoff.go:35-45 | in every reachable state an attempt may begin exactly if none of the address is under way and its last failure, if any, lies the backoff behind: 30 s after one, doubled up to an hour |
| `TcpBackoff.StoredEntries` | src/tcp_backoff.go:47-66 | every stored entry is connecting or has a delay between 30 s and 1 h |
| `TcpBackoff.FailureSpacing` | src/tcp_backoff.go:35-66 | failure k+1 comes at least 30·(2^k−1) s after failure 1 for k ≤ 7, and 3810 + 3600·(k−7) s beyond, cancellations allowed |
| `Routing.LawfulHistories` | src/server.go:257-332 | every upstream of a session gets the init once and first, only an accepted init leads to the bridge, nothing follows its closing |
| `Routing.LawfulTallies` | src/transport.go:449-539 | at any time at most one upstream is open and one reservation held; at most one bridge and three proxy dials |
| `Routing.OneOpen` | src/server.go:257-332 | at any point of an accepted log, the upstreams opened and not closed are at most the one its monitor says |
| `Routing.NothingAfterBridge` | src/server.go:257-332 | once a bridge is entered only its upstream's closing follows |
| `Routing.ClosedBetween` | src/server.go:257-332 | between two openings of upstreams the first one is closed |
| `Routing.Preference` | src/server.go:282-326 | the order is direct, pooled worker, dialed worker, then proxy and TCP as configured |
| `Routing.RoutesInOrder` | src/server.go:290-311 | routes are tried in the configured order of preference |
| `Routing.Session.ConnectWorker` | src/worker_pool.go:119-149 | returns the upstream of the first domain whose attempt succeeds before the context ends, init accepted; otherwise there is no such domain and nothing is left open or reserved |
| `Routing.Session.FindWorker` | src/transport.go:449-474 | the pooled worker if it takes the init, otherwise what the dialing loop finds; nothing exactly if both refuse |
| `Routing.Session.TryWorker` | src/transport.go:449-478 | serves the session over that worker, or leaves everything closed, the ciphers and the client untouched, when both worker routes refuse |
| `Routing.Session.ConnectProxies` | src/transport.go:486-529 | the same for the proxy loop, within three granted dials |
| `Routing.Session.TryCf` | src/transport.go:480-539 | serves the session over that proxy, or leaves it untouched when the route refuses |
| `Routing.Session.TryTcp` | src/transport.go:290-298 | serves the session over TCP, or leaves it untouched when the route refuses |
| `Routing.Session.RunBridge` | src/transport.go:123-288 | over an upstream that has the init, both directions relay what is due as far as each side accepts it, cut into packets or not as the route demands, and the upstream is closed |
| `Routing.Session.Handle` | src/server.go:257-332 | for every environment the session is served by the first route that carries it, and turned away exactly when every route refuses; until then the ciphers stand at 64, 0, 64 and 0 and the client is untouched; exactly the granted domains that come to be dialed have been reserved, in order |
| `Routing.ServeClient` | src/server.go:199-332 | from handshake to end: only known handshakes enter; the first route that carries the client serves it, its upstream gets the init once and first and then what the client wrote, one packet per message over the direct and the proxy route and one read per message over the others; the client gets what it wrote; one bridge or none, everything opened is closed and everything reserved released |
| `FakeTlsSession.SeenBroken` | src/fake_tls.go:434-443 | a framed write that breaks off anywhere delivers a first part of its data and nothing else |
| `FakeTlsSession.AcceptClient` | src/fake_tls.go:56-121 | in come exactly the clients that present a complete hello that is let in, take the answer and send 64 bytes of data; they get the flight that is due, which they decode |
| `FakeTlsSession.ServeFakeTls` | src/server.go:199-332 | for every raw stream of a client: it is served exactly if it gets in and its data begins with a known handshake; the upstream reads what the client's records carry behind the handshake, and the client reads in the records behind the flight what the upstream wrote, also if a raw write breaks off |
| `Limits.FitsFDBudget` | src/limits.go:30-51 | true exactly when 33 + 4·PoolSize·IPs + (12 with prewarmed workers) + 2·MaxConns is at most the limit, for every map order, without wrap-around |
| `Limits.DirectPoolWithin` | src/limits.go:36-43 | in every reachable state the direct pool holds at most 4·PoolSize sockets per configured address |
| `Limits.WorkerKeysAre` | src/worker_pool.go:96-102 | a configuration's worker keys are one per data centre that a handshake can name, or the warmup asks for, and that has an address: six and those beyond the built-in ones |
| `Limits.WorkerBoundExact` | src/limits.go:44-49 | a bound on the worker pool's sockets holds in all reachable states if and only if it is a bound on the number of worker keys |
| `Limits.WorkerPoolWithin` | src/limits.go:44-49 | with prewarmed workers the reserve of twelve holds in all reachable states if and only if at most six data centres that a handshake can name, beyond the built-in ones, have an address; without, none is needed |
| `Limits.SessionsWithin` | src/server.go:176-196 | the semaphore never admits more than MaxConns sessions |
| `Limits.DroppedWhenFull` | src/server.go:176-196 | a connection is turned away exactly when MaxConns sessions are active |
| `Limits.World.OnePerSession` | src/server.go:176-332 | the upstreams that are no pool's, whether a get call has taken them, a session dials them or has dialed them, are at most one per active session |
| `Limits.World.AllCounted` | src/limits.go:30-51 | every connection of either pool that nobody has closed is counted, among the pool's sockets or as such an upstream |
| `Limits.WithinLimit` | src/limits.go:30-51 | when the check passes and the workers' reserve suffices, both pools in any reachable state, the clients of the sessions and every upstream taken, dialed or open together stay within the limit with 33 descriptors to spare |

## Left out

- Dialing, TLS and WebSocket handshakes, deadlines, keepalive and socket options: a dial is a success, a failure or a cancellation.
- Domain fronting inside refill: which of two ways a dial took does not affect the pool's state.
- Which of several addresses getForDC asks first: each of its get calls is a step of the pool machine.
- A second rotation or warmup running at the same time as the first: the program starts one.
- The filtering of a bucket in place and the clearing of its tail in rotate: buckets are values here.
- The growth policy of Go's append: the splitter's new buffer has an arbitrary amount of room to spare.
- The two bridge goroutines run one after the other in RelaySession and RunBridge: they share neither ciphers nor buffers nor sinks.
- What a connection does after it has reported a read error: the source's callers stop there.
- Failure of the random source: draws are given. GenerateRelayInit is given that an acceptable draw exists.
- ServerHello.ProbeOwnFlight: flights of 64 KiB and more, whose record length wraps; the only caller passes session ids of 32 bytes.
- Routing.Session.TryTcp: the answer of the attempt table is part of the environment; the table's own state is in TcpBackoff.
- FakeTlsSession.ServeFakeTls: the reads from the client are made before the session and the writes to it after; neither depends on the other. What a client that is not let in gets instead (a redirect, the masking domain) is not modelled.
- The raw byte stream of the TCP route: it is one message that ends with a failed read.
- The idle watchdog, progress observer, byte statistics, masking proxy, HTTP redirect, logging, flag parsing, domain list download and decoding, and certificate checks: timers, copying, I/O and plumbing.
- Unicode case and space handling of domain names: normalization is abstract.
