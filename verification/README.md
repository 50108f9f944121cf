# symbolon in Dafny

symbolon is a credentials broker: a client proves who it is over a Noise session and a pre-shared key,
asks in git-credential form for access to one repository, and gets a short-lived token that the broker
mints upstream. This project models the parts of the broker whose correctness depends on many steps
taken together, and proves what those parts promise over every run.

`dafny verify dfyconfig.toml` checks the whole project.

## What is modelled

- **The client registry** (`PskStore`, `Clients`, `AtomicFs`, `Registry`, `RegistrySafety`,
  `RegistryLimits`, `SharedState`). Enrol and revoke change two in-memory tables and two files under one
  mutex. The step system has any number of operations waiting, write failures, futures dropped at any
  await, kernel write-back at any time, and process kills and power loss in the middle of a write, which
  keep any content the file system may then hold. Files hold the concrete PSK text and the
  `clients.json` entries. The code of `enroll_client`, `revoke_client` and `atomic_write` is methods of
  two classes, proved to take paths of the step system.
- **The session** (`Noise`, `Transport`, `Sessions`, `SessionRun`, `SessionScript`, `SessionCorrect`).
  The responder and initiator machines, state by state, with drivers that read exactly what they are
  asked to, joined by two byte streams and interleaved in every way.
- **The connection driver** (`Connection`, `ConnectionSafety`). `handle_connection` as a loop over the
  responder, against any peer bytes and any registry, cut off by its timeout anywhere.
- **The whole** (`Broker`, `BrokerRun`). Any number of connections, turn by turn, interleaved with the
  registry's steps; each looks its peer up in the tables of that moment.
- **Shared structures** (`Singleflight`, `TtlCache`, `Mint`, `RateLimit`, `Signals`, `Drain`). Protocols
  between tasks are step systems; the structures themselves are classes.
- **The signing actor** (`AgentProtocol`, `Agent`). Callers, queue, actor thread, socket and agent.
- **Codecs** (`Identity`, `Utf8`, `PskStore`, `Transport`, `GitCredential`).

Runs are sequences of states and labelled events; what happened earlier is read off the events, so a
theorem about "once X, then Y until Z" is about event positions i < j.

### Assumptions

- A write that was cancelled has settled one way or the other before the mutex is taken again, and a file
  that was synced with its directory is stable.
- Noise is ideal: ciphertexts are terms that open only in the context that sealed them, and
  Diffie-Hellman agreement is symmetric. Random and ephemeral values are parameters.
- `clients.json` is the list of its entries, and the JSON codec of the agent protocol is a parameter with
  three laws (`AgentProtocol.Lawful`). `World` in that module also holds the signing key as a function.
- The driver reads exactly the bytes it asked for, or sees the stream end.
- Atomic operations in the signal handler are sequentially consistent; waking a registered task gets it
  scheduled.
- Clock readings are inputs. They are monotone only where a lemma says so.

### Where the code and its comments differ

The model follows the code.

- The comment at `src/transport.rs:631` calls `step` idempotent; in the state that asks for the PSK it is
  not, since the call moves on to awaiting it (`Transport.StepTwiceIff`).
- The comment at `src/transport.rs:205-209` says a body that is not UTF-8 is reported as
  `Identity::parse` would report it. That holds exactly when everything before the break is in the
  identity alphabet (`Transport.BreakIsFirstBadIff`).
- An enrol that reports an error may still be accepted after a restart
  (`RegistryLimits.FailedEnrolMaySurvive`; exactly when, `RegistryLimits.BrokenEnrolOnDisk`; until when,
  `RegistryLimits.BrokenEnrolIsForgotten`).
- A revoke that reports an error may be undone by a later revoke of somebody else
  (`RegistryLimits.FailedRevokeMayBeUndone`). Until then it holds if it broke off in its second write
  (`RegistryLimits.BrokenRevokeStaysOut`); in its first it has done nothing for readers
  (`RegistryLimits.BrokenRevokeFirstWrite`).
- A revoke that returned Ok does not stop a connection that looked the client up before it
  (`BrokerRun.LateMintExists`); it stops every other (`BrokerRun.LateMintLookedEarlier`).
- The header of `src/singleflight_cache.rs` says at most one resolve per key. An invalidation that lands
  on an in-flight marker admits one more; `Singleflight.ResolverBound` is the bound that holds and
  `Singleflight.BoundIsTight` shows that it is reached. Such an invalidation does not keep the older
  value out of the memo either (`Singleflight.StaleMemoExists`).

## Model

| member | source | states |
|---|---|---|
| BrokerRun.MintHasItsLookup | src/daemon.rs:1010-1146 | in every interleaving of registry steps and connection turns, timeouts included, a mint for a client follows that connection's own lookup, which found the client in both tables as they then were, and the peer sealed a request for that very path under the key they held and the ephemeral the broker drew for this connection |
| BrokerRun.MintsOnce | src/daemon.rs:987-1186 | in every interleaving a connection mints at most once over all its turns |
| BrokerRun.LateMintLookedEarlier | src/daemon.rs:420-441 | a mint for a client after its revoke returned Ok, with no enrol of it since, belongs to a connection whose lookup came before that revoke's first write was done |
| BrokerRun.RevokedNeverMints | src/daemon.rs:420-441 | so a connection opened once that write is done never mints for the client, whatever its peer sends, until an enrol of it takes the mutex |
| BrokerRun.LateMintExists | src/daemon.rs:1096-1146 | from every start with the client enrolled there is a run where its revoke returns Ok and a connection that had looked it up earlier then mints for it |
| BrokerRun.ConnectionsRunAlone | src/daemon.rs:952-1215 | whatever the registry does meanwhile and wherever a timeout strikes, what a connection has done is the beginning of what it would do alone against the tables of its lookup |
| Broker.EnrolledIsServedInRun | src/daemon.rs:952-1215 | after an enrol returned Ok, and until a revoke of that client takes the mutex, a client holding that key gets its token, with the live tables or those of any start after a crash |
| Broker.EnrolledIsServed | src/daemon.rs:987-1215 | the converse of the mint gate: an enrolled client that follows the protocol under its key is recognised, minted for exactly once for the path it asked, and answered; the whole trace is given |
| Broker.Greets | src/daemon.rs:987-1094 | any input whose first frame names an enrolled identity is read, looked up and answered with message 2 |
| Broker.Serves | src/daemon.rs:1096-1215 | a decrypted request that the broker acts on is minted for once, for its own path, and its answer is sent before the close |
| RegistrySafety.RevokedStaysOut | src/daemon.rs:420-441 | after a revoke returned Ok, and until an enrol of that client takes the mutex, the client is accepted neither by the live tables nor by those loaded from any content a crash may leave |
| RegistrySafety.EnrolledStaysIn | src/daemon.rs:345-413 | after an enrol returned Ok, and until a revoke of that client takes the mutex, the client is accepted with exactly that key, live and after a reload of any content a crash may leave |
| RegistrySafety.NoSecondEnrol | src/daemon.rs:352-359 | between an Ok enrol and the next revoke no other enrol of that client returns Ok, so the key stays the one set |
| RegistrySafety.RestartAlwaysLoads | src/daemon.rs:748-767 | in every reachable state, whatever content the two files may crash to is content the start-up code accepts |
| RegistrySafety.NoNewOrphans | src/daemon.rs:361-395 | at every yield point, identities with a key but no client record are among those there at load |
| RegistrySafety.BrokenEnrolRestores | src/daemon.rs:367-411 | an enrol that failed or was dropped leaves the accepted clients as they were when it took the mutex, whatever other operations queued up meanwhile |
| RegistrySafety.RunKeeps | src/daemon.rs:337-441 | the invariant relating tables, files, the mutex holder and the history holds in every state of every run |
| RegistryLimits.BrokenEnrolOnDisk | src/daemon.rs:381-412 | after a broken enrol, for every pair of contents a kill or a power loss may leave: the client is accepted if and only if the one carries its record and the other its key, each from this enrol or from before; the key is the new one exactly when the PSK file was replaced |
| RegistryLimits.BrokenEnrolIsForgotten | src/daemon.rs:402-412 | once another operation has written `clients.json` out again, with no restart in between, a broken enrol leaves no trace: the client is out, live and after any crash, until an enrol of it takes the mutex |
| RegistryLimits.FailedEnrolMaySurvive | src/daemon.rs:381-412 | from every start without the client there is a run where its enrol errs and the restarted broker accepts it |
| RegistryLimits.BrokenRevokeStaysOut | src/daemon.rs:429-440 | after a revoke that broke off in its second write, until an enrol of the client or a revoke of somebody else takes the mutex, the client is accepted neither live nor after any crash |
| RegistryLimits.BrokenRevokeFirstWrite | src/daemon.rs:427-431 | after a revoke that broke off in its first write, until somebody takes the mutex or the broker starts again: readers see what they saw before, and contents a crash may leave accept the client if and only if `clients.json` is the old one and both files had the client |
| RegistryLimits.OffRosterStaysOut | src/daemon.rs:420-441 | a client with no record in memory or on disk stays out, live and after any crash, until an enrol of it takes the mutex, whatever becomes of its key |
| RegistryLimits.FailedRevokeMayBeUndone | src/daemon.rs:420-441 | from every start with two clients there is a run without enrols where a revoke errs, the client is out, and is in again after another revoke and a kill |
| SharedStates.SharedState.EnrollClient | src/daemon.rs:345-413 | the code, with its rollback guard, takes a path of the step system for every place its two writes can end and for a roster that will not encode, and refuses exactly a known client |
| SharedStates.SharedState.RevokeClient | src/daemon.rs:420-441 | the same for revoke, which refuses exactly an unknown client |
| SharedStates.SharedState.RenderClients | src/daemon.rs:449-464 | the rendered entries are the roster, less the skipped client, in some order |
| AtomicFs.Volume.AtomicWrite | src/atomic_fs.rs:18-53 | completes exactly when no step fails or is cut off; completed, the new content is what any crash leaves; otherwise each crash leaves the old or the new, never a mixture; no other file changes |
| AtomicFs.RenameLands | src/atomic_fs.rs:44-47 | renaming a synced private file makes its content live at once and adds it, alone, to what a crash may leave |
| AtomicFs.SyncDirSettles | src/atomic_fs.rs:48-52 | syncing the directory leaves one possible content for every synced file in it and takes none away elsewhere |
| Clients.RenderThenLoad | src/daemon.rs:449-464 | loading a rendered document gives back the roster it was rendered from, less the skipped client |
| Clients.PsksRenderThenLoad | src/daemon.rs:748-767 | loading a rendered PSK file gives back the table |
| Clients.RosterFromDoc | src/daemon.rs:928-950 | the loading loop gives the roster of the entries, or the duplicate it stopped at |
| PskStores.RenderThenParse | src/psk_store.rs:76-136 | parsing a rendering gives back the store, for every store and every iteration order |
| PskStores.ParseTextIff | src/psk_store.rs:76-108 | a text parses to a table exactly when its lines, blanks aside, spell that table's entries once each |
| PskStores.PskHexRoundTrip | src/psk.rs:60-68 | a key's hex form decodes to that key |
| PskStores.HexRoundTrip | src/psk.rs:44-68 | hex decoding inverts hex encoding for every byte string |
| PskStores.PskStore.Load | src/psk_store.rs:76-108 | the parsing loop yields the table of the text, or the first error with the store untouched |
| PskStores.PskStore.Lookup | src/psk_store.rs:111-113 | answers exactly the stored key |
| PskStores.PskStore.Insert | src/psk_store.rs:116-118 | sets one entry and leaves the others |
| PskStores.PskStore.Remove | src/psk_store.rs:121-123 | removes one entry, leaves the others, and tells whether it was there |
| PskStores.PskStore.Render | src/psk_store.rs:128-136 | the rendering loop writes a text that parses back to the store |
| Identities.Parse | src/identity.rs:70-83 | accepts exactly 1 to 64 bytes of the identity alphabet, unchanged, and otherwise reports the length or the first byte outside it |
| Transport.TlvCanonical | src/transport.rs:165-240 | decoding an encoded identity followed by anything gives the identity and its length, and whatever decodes was consumed byte for byte as the encoding of the result |
| Transport.IdentityIsUtf8 | src/transport.rs:201-217 | an identity is always UTF-8, so the text check in the decoder refuses none |
| Transport.BreakIsFirstBadIff | src/transport.rs:201-217 | for a body that is not UTF-8 the reported byte is the first outside the identity alphabet if and only if all before it are inside |
| Transport.SpaceBeforeBreak | src/transport.rs:201-217 | a space then 0xFF is reported at 0xFF, where `Identity::parse` would report the space |
| Transport.StepTwiceIff | src/transport.rs:627-694 | asking the responder twice gives what asking once gives if and only if it is not handing over an identity, a frame or a request |
| Transport.FrameAnnounces | src/transport.rs:288-307 | the two length bytes of a frame announce exactly its payload, which follows |
| Noise.OpenSeal | src/transport.rs:313-356 | a sealed message opens to its text in its own context and in no other |
| Noise.MessageOne | src/transport.rs:249-334 | message 1 is readable, with its payload, by exactly the broker whose key it was made for |
| Noise.ChainsAgree | src/transport.rs:249-286 | the two sides derive the same key chain if and only if they hold the same PSK |
| Noise.MessageTwo | src/transport.rs:313-334 | message 2 is accepted if and only if the PSKs are equal |
| Noise.TransportRoundTrip | src/transport.rs:335-356 | a transport message is read back by the other side at the same counter |
| Sessions.Responder.Recv | src/transport.rs:696-750 | what received bytes do in every state, wrong lengths, wrong states and malformed input included |
| Sessions.Responder.SetPsk | src/transport.rs:752-776 | supplying the key produces message 2 through a scratch buffer whose old content does not show |
| Sessions.Responder.SetResponse | src/transport.rs:804-822 | the response is sealed and framed, or refused when it does not fit |
| Sessions.Initiator.Recv | src/transport.rs:980-1029 | what received bytes do in every state, errors included |
| SessionRun.StartIsNew | src/transport.rs:906-925 | runs start where `Initiator::new` leaves the initiator |
| SessionRun.MoveKeepsDiscipline | src/transport.rs:610-822 | from every pair of machine and driver that agree, every move leaves them agreeing |
| SessionRun.NoMisuse | src/transport.rs:610-1067 | in every interleaving, for every key and PSK, neither machine ever reports a wrong length or a wrong state |
| SessionCorrect.RequestIsAuthentic | src/transport.rs:696-750 | in every run, a request the responder emits is the initiator's own, emitted once, and then the PSKs and the broker key match |
| SessionCorrect.ResponseIsAuthentic | src/transport.rs:980-1067 | a response the initiator ends with is the broker's response to that request |
| SessionCorrect.RunsAreBounded | src/transport.rs:610-1067 | with matching keys and bodies that fit, a rank that every move raises bounds the length of every run |
| SessionCorrect.NoDeadlock | src/transport.rs:610-1067 | a reachable state with neither side broken is finished or can move |
| SessionCorrect.SessionCompletes | src/transport.rs:610-1067 | with matching keys and bodies that fit, a run that can go no further has both sides done, request and response delivered unchanged and both streams empty |
| Connection.HandleConnection | src/daemon.rs:952-1215 | the driver loop produces, for any peer bytes, the trace the responder's machine calls for, cut off where the per-connection timeout drops it |
| ConnectionSafety.EnrolmentInvisible | src/daemon.rs:1010-1078 | for any two registries and any peer bytes whose transport frame decrypts in neither run, with randomness to be had, read sizes, write lengths and the close are the same |
| ConnectionSafety.TwoRuns | src/transport.rs:696-776 | the same from any pair of responder states that have treated the peer alike |
| ConnectionSafety.AnswerNeedsKey | src/daemon.rs:1010-1040 | message 2 goes out if and only if the identity is enrolled or a random key could be drawn |
| ConnectionSafety.MintGate | src/daemon.rs:987-1186 | on every connection at most one mint, only for a client this connection's earlier lookup found in both tables, and only for the path of a request the peer sealed as its first message under that client's stored key and this connection's own ephemeral, so a frame recorded elsewhere will not do |
| Singleflight.ResolverBound | src/singleflight_cache.rs:66-138 | in every run, live resolvers of a key are at most one plus the invalidations of it that hit an in-flight marker; at most one when there were none |
| Singleflight.BoundIsTight | src/singleflight_cache.rs:100-102 | for every number of hits some run reaches the bound |
| Singleflight.NoStrandedWaiter | src/singleflight_cache.rs:74-78 | the event a waiting task listens for belongs to a live guard, and however that guard's task ends the waiter runs again |
| Singleflight.ValuesAreResolved | src/singleflight_cache.rs:66-93 | every Ok value was produced by an earlier successful resolve of the same key |
| Singleflight.MemosAreFresh | src/singleflight_cache.rs:95-102 | a memoised value comes from a resolve that ended after the last invalidation of its key |
| Singleflight.MemosAreClaimedSince | src/singleflight_cache.rs:95-120 | and was claimed after it too, if nobody was resolving the key when it was invalidated |
| Singleflight.StaleMemoExists | src/singleflight_cache.rs:95-130 | otherwise, for every key and value, some run memoises the value of a resolve claimed before the invalidation |
| Singleflight.ResolvedOnce | src/singleflight_cache.rs:59-65 | once the only resolver of a key has succeeded, every later claim hits its value and nobody resolves, until an invalidation |
| Singleflight.SingleflightCache.Claim | src/singleflight_cache.rs:109-120 | one atomic test-and-set: a hit, an event to wait for, or a fresh claim |
| Singleflight.SingleflightCache.DropGuard | src/singleflight_cache.rs:180-191 | whatever became of the resolve, the claim is released and its event notified |
| Singleflight.SingleflightCache.Invalidate | src/singleflight_cache.rs:100-102 | removes the entry of one key, marker or memo, and notifies nobody |
| Mint.TokensAreForTheirRepo | src/providers/github.rs:295-352 | every token a mint returns, fresh or cached, was minted for a repo id that an earlier successful resolve of the same key produced, the key being the mint's own path in lower case |
| Mint.CacheServesIff | src/providers/github.rs:303-316 | the cache serves a token exactly when it is the last minted for the key, not invalidated since, and expires after this and every other clock reading since |
| Mint.LookupsAreBounded | src/providers/github.rs:318-343 | upstream lookups of a key under way at once are at most one plus the not-found answers that landed on one in flight |
| Mint.MemoRuns | src/providers/github.rs:318-343 | the memo inside any mint run is itself a run of the singleflight protocol |
| Mint.CacheRuns | src/providers/github.rs:303-349 | the token cache inside any mint run is the one its operations call for |
| Mint.ParsePathIff | src/providers/github.rs:827-842 | a path parses to two names exactly when it is those names joined by one slash, both nonempty and within the alphabet |
| Mint.SameKeyIff | src/providers/github.rs:296-301 | two paths share a key exactly when they differ in ASCII case alone |
| TtlCaches.TtlCache.Sweep | src/ttl_cache.rs:94-107 | leaves exactly the unexpired entries, whatever duplicates and tombstones the heap holds |
| TtlCaches.TtlCache.GetWithExpiry | src/ttl_cache.rs:56-64 | answers the unexpired entry of the key, if there is one |
| TtlCaches.TtlCache.Insert | src/ttl_cache.rs:68-76 | replaces the key's entry among the unexpired ones |
| TtlCaches.TtlCache.Invalidate | src/ttl_cache.rs:80-82 | removes the key's entry and keeps the heap covering the rest |
| TtlCaches.HeldIffCached | src/ttl_cache.rs:56-107 | for any clock, an entry is held exactly when it is the key's latest insert, not invalidated since, and outlives every clock reading since |
| TtlCaches.GetRefinesPlainMap | src/ttl_cache.rs:56-76 | when no earlier reading is past now, a get answers exactly the latest uninvalidated insert that expires after now |
| TtlCaches.NeverExpired | src/ttl_cache.rs:56-64 | with any clock, a get never answers an entry expired by its own reading |
| RateLimit.TokenBucket.TryAcquire | src/rate_limit.rs:64-73 | one attempt: admitted or not, with the count it reports and the next state |
| RateLimit.AdmitsIffAffords | src/rate_limit.rs:50-73 | under a monotone clock an attempt is admitted exactly when a credit bucket of capacity tolerance + interval, refilled at rate one, can pay one interval |
| RateLimit.StepMatches | src/rate_limit.rs:64-73 | the two buckets decide alike and stay matched, from any matching pair |
| RateLimit.WindowBound | src/rate_limit.rs:64-73 | any window of any run admits at most 1 + (W + tolerance) / interval attempts |
| RateLimit.AdmittedSplits | src/rate_limit.rs:64-73 | admissions add up across a run cut anywhere, so the bound holds of every window |
| RateLimit.BurstIsExact | src/rate_limit.rs:28-32 | after idling, a tolerance of burst - 1 intervals admits exactly the first `burst` simultaneous attempts |
| RateLimit.UnknownIdentityBudget | src/daemon.rs:56-64 | the warning budget, for a clock of any resolution: a burst of exactly ten, and at most 10 + W / 6 s in any window of length W |
| RateLimit.ReportsTheGap | src/rate_limit.rs:66-72 | an admission reports the rejections since the previous one, saturated at 64 bits |
| RateLimit.SuppressedIsConserved | src/rate_limit.rs:66-72 | below saturation, reported plus pending equals all rejections |
| Signals.NoLostSignal | src/signals.rs:50-77 | no reachable state has a flag set and the watcher parked unless it is scheduled or a handler has yet to wake it |
| Signals.SettledRunFinishes | src/signals.rs:95-107 | once the handlers are done, a set flag makes the watcher return within four of its own operations |
| Signals.CancelsOnceForARealSignal | src/signals.rs:95-107 | shutdown is cancelled at most once, exactly when the watcher returns, and the name returned is of a signal whose handler stored its flag |
| Signals.ShutdownWatcher.Notify | src/signals.rs:50-53 | uninterrupted, it is the last two operations of a handler instance |
| Signals.ShutdownWatcher.OnSignal | src/signals.rs:124-127 | uninterrupted, it is the three operations of a handler instance |
| Signals.ShutdownWatcher.Poll | src/signals.rs:67-77 | ready exactly when notified, which it consumes; otherwise the waker is registered |
| Signals.ShutdownWatcher.RunTask | src/signals.rs:95-107 | one run of the watcher ends, returning exactly when a flag is set that it gets to see |
| Agent.RepliesArePaired | src/providers/agent_backend.rs:98-167 | whatever is abandoned and when, a reply delivered for a job is the agent's answer to that job's request |
| Agent.OneOutcome | src/providers/agent_backend.rs:105-112 | an outcome never changes once a job has it |
| Agent.NoSecondReply | src/providers/agent_backend.rs:105-112 | no round trip ends for a job that has an outcome |
| Agent.NothingAfterFailure | src/providers/agent_backend.rs:105-118 | after the first failed round trip none ends again, so no further job gets Ok |
| Agent.NobodyForgotten | src/providers/agent_backend.rs:113-118 | once the thread is gone every job not abandoned has an outcome |
| Agent.SignIsTheKeys | src/providers/agent_backend.rs:154-183 | `sign` yields the key's signature of those claims, the key's refusal capped, a dead backend, or a refusal for size, the last exactly for claims that do not fit a datagram, and nothing else |
| Agent.RoundTrip | src/providers/agent_backend.rs:136-143 | the result is this trip's datagram or its failure; the shared buffer's old content does not show |
| Agent.RunJobs | src/providers/agent_backend.rs:105-112 | each job gets its own trip's outcome up to and including the first failure, the rest a dead backend |
| Agent.ServeLoop | src/providers/agent.rs:256-274 | the k-th datagram sent is the answer to the k-th datagram received; every datagram before the stop is answered and none after it; the stop is the first fault, end of file, or answer that does not fit or cannot be sent |
| AgentProtocol.CapIsTight | src/providers/agent_protocol.rs:65-75 | a capped message is a UTF-8 prefix within the limit, short of it by at most three bytes |
| AgentProtocol.CapError | src/providers/agent_protocol.rs:65-75 | the backwards search stops at the last character boundary within the limit |
| AgentProtocol.LawfulExists | src/providers/agent_protocol.rs:78-95 | there is a codec with the laws asked of JSON, for any signing key |
| AgentProtocol.ErrorsFit | src/providers/agent_protocol.rs:26-34 | an error response always fits one datagram |
| Drain.CounterAndNotification | src/connection_tracker.rs:46-123 | in every reachable state the counter is the number of live tokens, the drain has turned its loop at most twice, and a drain awaiting with none left has been notified |
| Drain.ReportIsExact | src/connection_tracker.rs:118-122 | a drain reports the handlers that finished while it ran, and a complete one all that were there when it began |
| Drain.DrainEnds | src/connection_tracker.rs:98-117 | every step of a drain lowers a rank of at most eleven that no handler raises, until it has reported it can always take one, and with no handler left it needs no timer |
| Drain.ConnectionTracker.Drain | src/connection_tracker.rs:98-123 | the loop ends within two turns; it is complete exactly when no handler was there or all finished, and were seen to, before the deadline |
| Drain.ConnectionTracker.DropToken | src/connection_tracker.rs:46-54 | decrements, and notifies exactly on reaching zero |
| GitCredential.ParseIff | src/git_credential.rs:151-278 | a request parses to a value exactly when the input is within the cap, terminated, grammatical line by line, and means that value |
| GitCredential.ParseBlockIff | src/git_credential.rs:181-278 | a block parses exactly when every line is clean with a nonempty key and protocol, host and path occur once within bounds |
| GitCredential.BlockIff | src/git_credential.rs:164-179 | the block is what stands before a final blank line or end of input after a newline, with nothing after it |
| GitCredential.TerminatorsAgree | src/git_credential.rs:157-177 | a block ended by a blank line and the same block ended by end of input parse alike when both fit |
| GitCredential.CapFoldIs | src/git_credential.rs:217-228 | the capability flag is set exactly when authtype comes after the last reset |
| GitCredential.ParseRequest | src/git_credential.rs:151-278 | the line loop computes the specified result, errors included |
| GitCredential.NewResponse | src/git_credential.rs:51-88 | a response is accepted exactly when its fields are clean and its expiry representable |
| GitCredential.ResponseSplits | src/git_credential.rs:312-333 | splitting an encoded response at newlines gives exactly the intended lines and the closing blank line |
| GitCredential.Encode | src/git_credential.rs:312-333 | appends the encoded response and leaves what was in the buffer |
| GitCredential.DecimalReads | src/git_credential.rs:71-76 | the printed expiry reads back as the number, without leading zeros |

## Left out

- The `noise`, curve, RSA, hash, base64 and JSON libraries: foreign code, replaced by the assumptions above.
- `read_exact_n` (src/daemon.rs:1422-1443): reads are exact takes from a stream; short reads by the transport are not modelled.
- Sandboxing, memory locking, seccomp, Landlock, socket activation: system calls with no logic to state.
- HTTP in the GitHub provider (src/providers/github.rs): each call is an arbitrary result.
- The TPM signing backend: its wire checks are in a crate that is not part of this model.
- The admin socket, configuration, command line, logging and event schema: they would only add one-branch facts.
- Real time: deadlines and timers are nondeterministic events or clock inputs.
- Weak memory orderings in the signal notifier.
- The order in which the expiration heap breaks ties between equal times, and its array layout: the heap is a multiset whose least item is taken.
- The retry loop of `with` as a method: it waits between claims, so it is the task protocol of the singleflight step system.
- Handlers finishing between the statements of the `drain` method: the method has them finish during the wait, as on the single-threaded runtime; the step system lets them finish between any two steps.
