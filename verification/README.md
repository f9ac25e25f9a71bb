# quicSQL: verified models of its stateful protocols

quicSQL serves SQLite databases over HTTP. This project models the parts of it whose
correctness depends on interleaving, history or byte layout, and proves what they
promise over every run and every input:

- the handle registry: one lazily opened, reference-counted handle per database, with
  reservations, removal and idle reaping (`registry.dfy`, `registry_runs.dfy`,
  `registry_answers.dfy`);
- Hrana sessions: rotating batons, a busy flag, a per-database cap, a reaper and
  asynchronous teardown (`sessions.dfy`, `session_runs.dfy`, `session_answers.dfy`), and
  their composition with the registry through the reference each stream owns (`streams.dfy`);
- session tokens: the byte format (`bytes.dfy`, `token_codec.dfy`), sliding expiry,
  revocation with garbage collection and step-up (`minter.dfy`, `minter_runs.dfy`),
  and the assurance gate (`assurance.dfy`);
- the change feed: transaction buffers, a ring of numbered events and bounded
  subscriber channels (`feed.dfy`, `feed_runs.dfy`);
- enrollment: single-use codes, a capacity counter and per-principal gates
  (`gates.dfy`, `enroll.dfy`, `enroll_runs.dfy`, `enroll_answers.dfy`, `enroll_cap.dfy`);
- the request limiter (`limits.dfy`), and the conditional batch with its cursor stream
  (`batch.dfy`, `cursor.dfy`).

Each protocol has the same three layers. Every critical section of the source is a
function on the protected fields. A class holds those fields and updates them in
place; its methods are proved to do what the functions say. A `World` puts all callers
side by side: its events are the critical sections and the steps taken outside the
lock, `Inv` is the invariant, `StepKeeps` shows that every event keeps it, and the main
results speak about `Run`, any legal sequence of events. What each operation answers is
stated apart from how it computes it: from who holds what, from the history, or with its
limits and cases written out.

Some properties one might expect hold only under a condition. Each is proved exact, and
each has its failing input:

- issue and parse are inverse except for a short credential id and a claim time at the
  Unix epoch: `TokenCodec.RoundTripExact`, `TokenCodec.LostOnWire`;
- a bulk revocation is final if and only if its stored deadline covers the tokens issued
  so far; one that stores an earlier deadline even undoes an earlier revocation:
  `MinterRuns.RevokeSettles`, `MinterRuns.SettledExact`, `MinterRuns.EarlyDeadline`,
  `MinterRuns.EarlyByOne`;
- step-up freezes the authentication time if and only if its wire form is not zero, which
  holds of every issued token: `MinterRuns.StepUpFreezes`, `MinterRuns.StepUpThaws`,
  `MinterRuns.TokenTimes`;
- a batch condition panics if and only if it reaches a negative step index, and a batch
  if and only if one of its steps does: `Batch.CondMeaning`, `Batch.NegativeIndex`,
  `Batch.BatchPanics`;
- a reservation guarantees a closed database if and only if no other closer has one of its
  handles pending when it is made: `RegistryRuns.ReserveExact`,
  `RegistryRuns.ReservedWhileOpen`;
- a reconnect continues where the client left off if and only if it names a number of at
  least one, or the feed is empty: `FeedRuns.ReconnectExact`, `FeedRuns.ZeroSkips`;
- the enrollment cap bounds the stored rows if and only if every stored key could be read
  and the rows were within the cap at startup, rows not read being never counted:
  `EnrollCap.CapExact`, `EnrollCap.CapExceeded`;
- a failed enrollment leaves its single-use code usable if and only if no code collection
  ran while it was in use, and until it expires; the source says such a failure never
  burns the code: `EnrollRuns.CodeReturned`, `EnrollRuns.CodeBurnt`.

## Model

| member | source | states |
|---|---|---|
| `Registry.Registry.GetEnter` | registry/registry.go:103-138 | the first critical section of a lookup: unknown name, wait on the latch of the existing entry, or install an entry already counted once for its opener |
| `Registry.Registry.GetPublish` | registry/registry.go:119-137 | the opener's second critical section: publish the handle, or drop the failed entry and its count |
| `Registry.Registry.GetAwake` | registry/registry.go:147-171 | a waiter's critical section after the latch: count in only if the entry is still the published one, otherwise fail or start over |
| `Registry.Registry.DetachIdleLocked` | registry/registry.go:243-253 | busy while opening, reserved or referenced; otherwise the entry leaves the map and its handle is the caller's to close |
| `Registry.Registry.ReserveName` | registry/registry.go:211-229 | a reservation puts a placeholder in the place of the idle entry it detaches, or fails with the whole state unchanged |
| `Registry.Registry.RemoveName` | registry/registry.go:270-285 | removal refuses unknown and busy names, otherwise drops entry and backend together |
| `Registry.Registry.ReapIdle` | registry/registry.go:291-310 | whatever the iteration order, exactly the entries idle beyond the limit leave the map, and the close list is their handles, each once |
| `RegistryRuns.StepKeeps` | registry/registry.go:102-310 | every critical section of every caller, in any interleaving, keeps the seven-part registry invariant |
| `RegistryRuns.HandleSafety` | registry/registry.go:102-310 | in every run: reference counts are exact, entries outside the map have none, no handle is closed twice, none is closed or queued while held, and any other open handle is detached, unused and owned by exactly one closer |
| `RegistryRuns.GrantStays` | registry/registry.go:147-186 | a grant keeps its entry and its handle through every step but its own release |
| `RegistryRuns.ReservedRefuses` | registry/registry.go:211-253 | while a name is reserved, a step of a lookup, reservation or removal of that name cannot succeed |
| `RegistryRuns.ReservedUsers` | registry/registry.go:211-253 | while a name is reserved, no grant on any entry of that name exists |
| `RegistryRuns.ReservedLasts` | registry/registry.go:211-235 | a reservation survives every step but its own release, and that removes its own placeholder and nothing else |
| `RegistryRuns.ReservationExclusive` | registry/registry.go:138-253 | over any run that does not end the reservation, nobody obtains the name, including lookups already waiting on the latch of the old entry, and at the end nobody holds it |
| `RegistryRuns.ReservedHandles` | registry/registry.go:211-253 | of a reserved database, a handle is closed if and only if no closer still has it pending |
| `RegistryRuns.ReserveReturns` | registry/registry.go:211-235 | per run: when a reservation has closed the handle it detached, every handle of the database is closed if and only if every other closer that had one pending at the time of the reservation has finished |
| `RegistryRuns.ReserveExact` | registry/registry.go:211-235 | at the call: the database is closed in every run once the reservation has returned if and only if no other closer has one of its handles pending when it is made |
| `RegistryRuns.ReservedWhileOpen` | registry/registry.go:291-310 | whenever a handle is idle, a sweep followed by a reservation succeeds with nothing to close while that handle is still open |
| `RegistryRuns.SweepCloses` | registry/registry.go:291-310 | the list built by the sweep loop is, as a multiset, what the run queues for closing |
| `RegistryAnswers.EnterAnswers` | registry/registry.go:103-117 | a lookup waits for the entry that is there, becomes the opener of a known database, or fails on an unknown one with nothing changed, each exactly then |
| `RegistryAnswers.OpenAnswers` | registry/registry.go:119-137 | the opener holds the handle it opened, which then serves the name; after a failed open it holds nothing and the name is free to be tried again |
| `RegistryAnswers.WakeAnswers` | registry/registry.go:147-171 | a waiter is given the handle that serves the name, open and with no closer, and holds it, if and only if its entry is still in the map and is no placeholder; it starts over if and only if the entry left the map, and is never given another's open error |
| `RegistryAnswers.ReserveAnswers` | registry/registry.go:211-235 | a reservation succeeds if and only if the database is known and nobody holds, opens or reserves it, and then takes exactly the handle that was serving it; otherwise nothing changes |
| `RegistryAnswers.RemoveAnswers` | registry/registry.go:270-285 | the same condition for a removal, after which the database is unknown |
| `RegistryAnswers.AddAnswers` | registry/registry.go:257-265 | adding makes a database known and is refused exactly if it is |
| `RegistryAnswers.IdleExact` | registry/registry.go:291-304 | a sweep takes exactly the databases in the map that nobody has and that were last used at least the limit ago, and none for a limit that is not positive |
| `RegistryAnswers.Stamps` | registry/registry.go:119-186 | an entry carries the time it was last opened, handed out or released, and no other step changes it |
| `RegistryAnswers.KeptWhileFresh` | registry/registry.go:291-310 | over every run whose sweeps come before last use plus limit, and that neither reserves nor removes the name, a handle goes on serving it |
| `Sessions.Store.constructor` | session/session.go:138-160 | a new store with defaulted limits and no sessions |
| `Sessions.Store.OpenReserve` | session/session.go:168-180 | a slot is taken exactly when the database is below its cap |
| `Sessions.Store.FreeSlot` | session/session.go:220-226 | a failed open gives its slot back |
| `Sessions.Store.CloseSession` | session/session.go:298-302 | forgetting a session frees its slot and yields what the teardown owns; an unknown session changes nothing |
| `Sessions.Store.ResumeBaton` | session/session.go:237-271 | all outcomes of a resume: unknown, stale or busy, lapsed (which closes), wrong database, wrong principal, or accepted with the generation advanced |
| `Sessions.Store.Baton` | session/session.go:275-286 | ending a request clears busy, stamps the time and returns the current generation |
| `Sessions.Store.KillSession` | session/session.go:361-388 | kill refuses a busy session and reports an unknown one |
| `Sessions.Store.Sweep` | session/session.go:392-402 | in any iteration order, the reaper closes exactly the idle sessions last used more than ttl ago or opened more than the maximum life ago, and a shutdown of streams exactly the idle ones |
| `SessionRuns.StepKeeps` | session/session.go:168-486 | every step of every request, kill and sweep keeps the session invariant |
| `SessionRuns.CounterExact` | session/session.go:168-226 | in every run the per-database counter is live sessions plus opens in progress, and never exceeds the cap |
| `SessionRuns.CloseSlots` | session/session.go:404-412 | the guard before the decrement never suppresses it when a session is forgotten |
| `SessionRuns.OpenFailSlots` | session/session.go:220-226 | nor when an open fails |
| `SessionRuns.BatonSpentOnce` | session/session.go:237-271 | a baton that resumed its session never resumes anything again in any later run |
| `SessionRuns.OneInFlight` | session/session.go:237-286 | a session has one request in flight exactly while it is busy, else none |
| `SessionRuns.BusyUntouched` | session/session.go:361-402 | while a request is in flight no reaper, kill, shutdown or other baton changes its session |
| `SessionRuns.PeekedBaton` | session/session.go:275-294 | whatever happens while a request runs, the baton peeked during it is the one handed back at its end; until then it is refused with nothing changed, and from then on it resumes the session unless that has lapsed |
| `SessionRuns.WrongResumeHarmless` | session/session.go:237-271 | a resume with the wrong database or principal never succeeds and, unless the session had lapsed, changes nothing at all |
| `SessionRuns.SerialClient` | client/hrana.go:40-53 | a client that always sends the last baton it received is refused only if its session was torn down or has lapsed at that moment |
| `SessionRuns.SessionsFramed` | session/session.go:404-449 | no step but an admission makes a session, none changes what a session owns, and each that disappears is handed to a teardown |
| `SessionAnswers.ResumeAnswers` | session/session.go:237-271 | every answer to a baton and the state after it: stale or busy, late by either limit and closed, wrong database, wrong principal, or resumed at the next generation |
| `SessionAnswers.ResumedExact` | session/session.go:237-271 | a baton resumes its session if and only if it is current, for the session's own database and principal, within ttl of the last use and within the maximum life |
| `SessionAnswers.BoundToOwner` | session/session.go:237-271 | over every run after a session is opened, every baton of it resumes only for the database and the principal it was opened for |
| `SessionAnswers.PromptClient` | session/session.go:237-286 | over every run without a kill or a shutdown, a client that presents its last baton within both limits is resumed, however often the reaper ran |
| `SessionAnswers.ReapExact` | session/session.go:469-486 | a sweep takes a session if and only if it is idle and past one of the two limits |
| `SessionAnswers.OpenAnswers` | session/session.go:168-180 | an open gets a slot if and only if live sessions and other opens of that database are fewer than the cap |
| `SessionAnswers.KillAnswers` | session/session.go:361-388 | a kill removes a session with no request on it, and otherwise reports busy or unknown with nothing changed |
| `SessionAnswers.Limits` | session/session.go:138-160 | the limits in force in every run: 60 seconds, five minutes and 64 sessions unless set |
| `Batons.BatonRoundTrip` | session/session.go:488-513 | a minted baton verifies to its own session and generation |
| `Batons.VerifiedIsMinted` | session/session.go:499-513 | whatever verifies is, byte for byte, the baton minted for what it verifies to |
| `Streams.StepKeeps` | httpapi/hrana.go:112-135 | registry and session store run together: every step of either and of the glue between them keeps the ownership invariant |
| `Streams.NoCloseUnderConnection` | session/session.go:404-449 | in every run a handle into which a stream, a live session or an unfinished teardown has a pinned connection is neither closed nor queued for closing |
| `Streams.ReleasedExactlyOnce` | httpapi/hrana.go:112-135 | in every run the release of a reference taken for a stream has been called once if nobody answers for it any more and not at all otherwise, on success and failure paths alike |
| `Streams.ClaimedIffAnswered` | httpapi/hrana.go:112-135 | a reference is claimed exactly while a stream, a session or a teardown answers for it |
| `Streams.SlotExact` | session/session.go:168-180 | a stream gets a slot if and only if its database has one left, and otherwise fails still owing its reference |
| `Streams.PinExact` | session/session.go:176-195 | what pinning a connection, unpinning it and giving the slot back make of a stream |
| `Streams.AdmitExact` | session/session.go:196-218 | the session made of a stream owns its reference and handle, for its database and principal, with the request running on it |
| `TokenCodec.Issue` | auth/session.go:175-193 | building the token in a buffer at fixed offsets gives the concatenation of its fields and the MAC over them |
| `TokenCodec.Put` | auth/session.go:175-193 | copying into the buffer at an offset leaves all other bytes alone |
| `TokenCodec.WireLayout` | auth/session.go:28-71 | where each field lies, offset by offset: 71 bytes of header, the principal, and the code over all of it |
| `TokenCodec.ParseIssued` | auth/session.go:404-429 | for every signing function, parsing an issued token gives back all its fields, normalized; only the empty principal is refused |
| `TokenCodec.RoundTripExact` | auth/session.go:159-193 | the round trip is the identity if and only if the credential id has 16 bytes and neither claim time is the Unix epoch |
| `TokenCodec.LostOnWire` | auth/session.go:159-193 | the failing inputs: the epoch is read back as the zero time, a credential id of another length as sixteen zero bytes |
| `TokenCodec.IssueParsed` | auth/session.go:404-429 | whatever parses is exactly what issuing its fields produces, so parsing is injective |
| `Bytes.BigEndianValue` | auth/session.go:175-193 | reading back the big-endian form of any sequence of bytes and writing it again is the identity |
| `Bytes.FlagsWire` | auth/session.go:175-193 | the 16 factor flags survive their two-byte form |
| `Bytes.MostSignificantFirst` | auth/session.go:175-193 | the first byte of a number is its most significant |
| `Bytes.TwosComplement` | auth/session.go:175-193 | a signed number is written in two's complement |
| `Bytes.BitWeight` | authz/assurance.go:36-42 | flag i is the bit of weight 2 to the i |
| `Assurance.GateExact` | authz/assurance.go:154-219 | every verdict for every action, with or without claims, written out: tier, scope and its hold, the factors named or by default, and the window set or ten minutes |
| `Assurance.LapsedStays` | authz/assurance.go:177-219 | a lapsed recency window stays lapsed at all later times for any claims with the same authentication time |
| `Minter.SessionMinter.RevokeToken` | auth/session.go:376-399 | a live token's session is recorded until its outer deadline while entries already past are swept, in any order; an expired token is refused with nothing changed |
| `Minter.SessionMinter.RevokeMany` | auth/session.go:232-246 | the loop records exactly the listed sessions but the excepted one, each with its given deadline, and leaves all others |
| `MinterRuns.StepKeeps` | auth/session.go:198-399 | minting, renewal, refresh, step-up and all kinds of revocation keep the token invariant |
| `MinterRuns.RevokedForever` | auth/session.go:289-399 | after a revocation that settles a session, and any further history in which no bulk revocation stores a deadline too early for it, no token of its chain, issued before or since, verifies, renews or refreshes, even once its entry has been swept |
| `MinterRuns.RevokeSettles` | auth/session.go:232-268 | a revocation settles its session if and only if its deadline covers every unexpired token issued so far; logout and revocation by id always do |
| `MinterRuns.SettledExact` | auth/session.go:348-371 | a revoked session is settled if and only if no further history without another revocation of it lets any of its tokens verify again |
| `MinterRuns.EarlyDeadline` | auth/session.go:232-246 | after a bulk revocation some token of the session verifies again, at some time in some history without another revocation of it, if and only if a token issued before outlives the stored deadline and the moment of revocation |
| `MinterRuns.EarlyByOne` | auth/session.go:232-246 | the failing inputs: a bulk revocation with a deadline one short of an unexpired token's expiry leaves that token valid at its expiry, also if the session had been revoked before |
| `MinterRuns.ChainBounded` | auth/session.go:198-342 | along renewals and refreshes identity, claims and hard deadline are frozen, expiry never shrinks nor passes the hard deadline, and n refreshes satisfy n * ceil(idle/2) < max |
| `MinterRuns.TokenAnswers` | auth/session.go:289-399 | for every issued token and every later time: when it verifies, is renewed, is refreshed and can be logged out, and that what is handed out has only its expiry moved, to one idle window from now or the hard deadline |
| `MinterRuns.ChainClaims` | auth/session.go:198-226 | over every later history, every token of a session has the principal, claims and hard deadline of the sign-in or step-up that began it; a step-up adds its factor, names its credential and carries the rest over |
| `MinterRuns.IssuedExact` | auth/session.go:198-342 | which steps issue a token: exactly the one the call returned, at that time, from that token |
| `MinterRuns.StaleForever` | auth/auth.go:580-592 | once the recency window of a token has lapsed, nothing derived from it by renewals, refreshes and step-ups passes any gate beyond data writes, ever, under that policy |
| `MinterRuns.StepUpFreezes` | auth/auth.go:580-592 | the token read back after a step-up has the old authentication time if and only if the wire form of that time is not zero |
| `MinterRuns.StepUpThaws` | auth/session.go:159-206 | the failing inputs: a missing time becomes the present at once; the Unix epoch is lost on the wire and becomes the present at the next step-up |
| `MinterRuns.TokenTimes` | auth/session.go:198-206 | no token of the minter lacks an authentication time |
| `MinterRuns.SlideOnWire` | auth/session.go:289-342 | what a renewal or a refresh returns for a token read from bytes, issued and read again, is the same token, so the record-level runs speak about bytes |
| `Feed.DbFeed.constructor` | feed/feed.go:68-100 | an empty feed whose ring has at least one slot |
| `Feed.DbFeed.Send` | feed/feed.go:263-272 | a full subscriber is dropped and closed, every other live one gets the event; no channel is closed twice |
| `Feed.DbFeed.Append` | feed/feed.go:260-272 | one event is numbered next, replaces the oldest slot and reaches the subscribers, and the ring still holds every retained event in its slot |
| `Feed.DbFeed.PublishAll` | feed/feed.go:256-274 | the ring refines the log: publishing appends the numbered events and slot (s - 1) mod cap holds event s for every retained s |
| `Feed.DbFeed.ReadFrom` | feed/feed.go:292-294 | the replay loop over the ring reads exactly the log after the given number |
| `Feed.DbFeed.Attach` | feed/feed.go:276-301 | with no room nothing changes; otherwise reset is reported if and only if the number is ahead of the log or more than the ring's length behind it, the replay is exactly the log after a retained number, and the new channel is live, empty and at the end of the log |
| `Feed.DbFeed.Detach` | feed/feed.go:303-310 | detaching closes a live subscriber's channel and otherwise changes nothing |
| `Feed.DbFeed.DetachAll` | feed/feed.go:312-319 | every live channel is closed, each once |
| `Feed.SlotsApart` | feed/feed.go:256-301 | any cap consecutive events have different slots |
| `FeedRuns.StepKeeps` | feed/feed.go:256-319 | publications, subscriptions, deliveries, drops and reconnects keep the channel and client invariants |
| `FeedRuns.NoGapNoDuplicate` | feed/feed.go:256-319 | over any chain of drops and reconnects from the last number seen, with no reset reported, replays and deliveries together are one contiguous slice of the log, which starts after the number the client began with or was given when it attached without one |
| `FeedRuns.ReconnectExact` | feed/feed.go:276-301 | the next event after a reconnect is the one after the last seen if and only if that number is at least one or nothing has been published |
| `FeedRuns.ZeroSkips` | feed/feed.go:276-301 | the failing input: attached to an empty feed and dropped, a client reconnecting from zero is not replayed the event committed meanwhile and receives the second event next |
| `FeedDrops.DeliverExact` | feed/feed.go:263-272 | a live channel takes every event it has room for, 256 in all, and is closed by the first it has none for |
| `FeedDrops.DroppedExact` | feed/feed.go:256-319 | a subscriber loses its channel if and only if it detaches, all are detached, or a commit leaves it more than 256 events behind |
| `FeedHooks.Connection.OnPreUpdate` | feed/feed.go:150-172 | a recognized change is buffered until the limit, after which only the overflow is remembered |
| `FeedHooks.Connection.OnCommit` | feed/feed.go:173-182 | a commit publishes the buffer, or one reset marker after an overflow, and empties it |
| `FeedHooks.Connection.OnRollback` | feed/feed.go:183-185 | a rollback forgets the buffer |
| `FeedHooks.BufferMatches` | feed/feed.go:148-185 | in every interleaving of connections, a connection's buffer is the recognized changes of its own open transaction |
| `FeedHooks.LogIsCommitted` | feed/feed.go:148-185 | the published log is the committed transactions in commit order, each a contiguous block or a single reset marker if it has more than 8192 changes; rolled-back ones leave nothing |
| `Limits.LimiterObject.TakeOne` | limits/limits.go:81-102 | refill by elapsed time up to the burst, then take a whole token or refuse |
| `Limits.LimiterObject.Admit` | limits/limits.go:55-67 | a request refused for concurrency has still paid its token; an admitted one is counted in |
| `Limits.WindowBound` | limits/limits.go:81-102 | after any history, in any time window of length d, a principal passes the bucket at most max(1, rps) + rps * d times |
| `Limits.StepLevel` | limits/limits.go:81-102 | a pass costs its principal exactly one token and nobody else anything |
| `Limits.LevelGrows` | limits/limits.go:91-95 | waiting refills at exactly the rate, up to the burst |
| `Limits.SpacedServed` | limits/limits.go:81-102 | after any history, a request at least 1/rps after its principal's last, or its first, is never refused for its rate |
| `Limits.BurstServed` | limits/limits.go:35-48 | after any history, a new principal may send max(1, rps) requests at once |
| `Limits.InFlightExact` | limits/limits.go:55-77 | in every run the in-flight count of a database is its admitted and unreleased requests, and never exceeds the cap |
| `Limits.AdmitAnswers` | limits/limits.go:55-77 | every answer: over the rate exactly below one token with a rate set, busy exactly at the cap of requests in flight with a cap set, otherwise admitted |
| `Batch.RunBatch` | httpapi/hrana.go:358-380 | the loop that fills the result arrays computes the step-by-step meaning of the batch |
| `Batch.CondMeaning` | httpapi/hrana.go:383-410 | for every condition: it panics if and only if it reaches a negative step index, one behind a list member that already settles the list not being reached; otherwise it evaluates to its logical reading |
| `Batch.NegativeIndex` | httpapi/hrana.go:383-410 | step -1 panics, and the same step behind a false conjunct does not |
| `Batch.SeqMeaning` | httpapi/hrana.go:393-405 | `and` and `or` over any list are conjunction and disjunction, the empty list included, and panic if and only if a member reached does |
| `Batch.CondLooksBack` | httpapi/hrana.go:358-410 | what a condition evaluates to, a panic included, depends only on earlier steps and on autocommit |
| `Batch.BatchPanics` | httpapi/hrana.go:358-380 | a batch panics if and only if some step it reaches does, and everything is then as that step found it |
| `Batch.IndexedBatch` | httpapi/hrana.go:358-380 | a batch without negative indices never panics, whatever the outcomes |
| `Batch.OutcomesFixed` | httpapi/hrana.go:358-380 | once a step's outcome is recorded no later step changes it |
| `Batch.Progressed` | httpapi/hrana.go:358-380 | after k steps nothing is recorded beyond k, and no step has both a result and an error |
| `Batch.StepOutcome` | httpapi/hrana.go:358-380 | every step of a batch that does not panic: if its condition holds the statement runs on the connection as the steps before left it, and what it returns is what is reported for it; otherwise nothing runs and nothing is reported |
| `Cursor.Emit` | httpapi/hrana_cursor.go:95-114 | a step's entries are written until the first failed write |
| `Cursor.RunCursor` | httpapi/hrana_cursor.go:87-114 | what is sent is a prefix of the stream of the whole batch, all of it if no write fails; the batch stops at the step whose write failed, and whether it panicked is reported |
| `Cursor.StreamGrows` | httpapi/hrana_cursor.go:95-114 | the stream of the first k steps is a prefix of the stream of all |
| `Cursor.CursorEqualsPipeline` | httpapi/hrana_cursor.go:95-114 | for every batch that does not panic, a parser that accepts only well-bracketed streams with strictly increasing steps rebuilds from the cursor stream exactly the answer of the pipeline |
| `Cursor.CursorAfterPanic` | httpapi/hrana_cursor.go:95-114 | a batch that panics has no pipeline answer, and its cursor stream is cut off before the step that panicked, holding exactly the outcomes of the steps before |
| `AtomicBatch.AllOrNothing` | httpapi/hrana.go:358-410 | a guarded BEGIN, statements, COMMIT, ROLLBACK batch of any length leaves all effects if COMMIT succeeded and none otherwise, however the steps fail |
| `AtomicBatch.CommitsWhenAllSucceed` | httpapi/hrana.go:358-410 | and it does commit when no step fails |
| `Gates.GateTable.Enter` | enroll/enroll.go:143-151 | find or make the gate of a name and count the user in |
| `Gates.GateTable.Exit` | enroll/enroll.go:153-160 | count the user out and drop an unused gate |
| `Gates.StepKeeps` | enroll/enroll.go:139-161 | arrivals, locks, unlocks and departures of any threads keep gate counts exact and the map to gates in use |
| `Gates.OneHolderPerName` | enroll/enroll.go:139-161 | two threads inside gates of the same name are one thread |
| `Gates.OnlyGatesInUse` | enroll/enroll.go:139-161 | a name is in the map if and only if some thread uses or awaits its gate |
| `Enroll.MetaStore.Insert` | meta/meta.go:239-247 | a row is inserted unless its name or its key is taken |
| `Enroll.MetaStore.UseCode` | meta/meta.go:280-290 | a code is consumed exactly when unused and unexpired |
| `Enroll.MetaStore.ReturnCode` | meta/meta.go:292-300 | a released code is unused again, an absent one stays absent |
| `Enroll.Service.EnrollLocked` | enroll/enroll.go:342-392 | whichever store operations fail, the locked section enrolls completely (row, spent code, count) or leaves everything as it was, save a code it could not give back; and which outcome it has |
| `EnrollRuns.StepKeeps` | enroll/enroll.go:143-431 | every store operation, lock, rollback and deletion, in any interleaving, keeps the enrollment invariant |
| `EnrollRuns.CountLaw` | enroll/enroll.go:191-208 | in every run, while nobody holds the mutex, stored rows plus deletions in progress are the count plus the rows unread at startup; the count never exceeds the cap unless it already did at startup |
| `EnrollCap.RowsCapped` | enroll/enroll.go:362-398 | in every run the stored rows are at most the cap, or the rows counted at startup if those were more, plus the rows unread at startup |
| `EnrollCap.RowsReached` | enroll/enroll.go:342-398 | from every start some run stores exactly that many rows |
| `EnrollCap.CapExact` | enroll/enroll.go:114-134 | the cap bounds the stored rows in every run if and only if every stored key was read at startup and the rows were within the cap then |
| `EnrollCap.CapExceeded` | enroll/enroll.go:114-134 | the smallest failing input: one stored row, unread, under a cap of one, and a run that stores two |
| `EnrollRuns.ProvisionExclusive` | enroll/enroll.go:391-431 | a principal is enrolled all the while a database is created for it, and nobody else is provisioning, rolling back or deleting that principal |
| `EnrollRuns.CodeSpentOnce` | meta/meta.go:280-307 | a code that backed an enrollment reported as created is never valid again and backs no other, through rollbacks and code collection |
| `EnrollRuns.CodeReturned` | enroll/enroll.go:163-180 | a code consumed and given back after any history is valid again at a given time if and only if no collection of codes came in between and it has not expired by then |
| `EnrollRuns.CodeBurnt` | meta/meta.go:302-307 | the failing input: one collection while the code is in use, and it is never valid again, through its return and every history after that |
| `EnrollRuns.CanLeave` | enroll/enroll.go:152-160 | a thread that is done at a gate can always unlock and depart |
| `EnrollAnswers.SectionExact` | enroll/enroll.go:342-398 | the section's steps, undisturbed: a known key, an invalid code or a full service changes nothing; otherwise the code is spent and the row stored and counted, unless another key has the name; the mutex is free again |
| `EnrollAnswers.ProvisionExact` | enroll/enroll.go:407-431 | undisturbed, a request is created if and only if its row was still there and provisioning succeeded, with nothing changed; otherwise no row is left, the count fell by one exactly if there was one, and its code is unused again |
| `EnrollAnswers.UndoExact` | enroll/enroll.go:168-175 | whatever goes on around it, a rollback leaves no row under its name and lowers the count exactly if there was one |
| `EnrollAnswers.RollbackStands` | enroll/enroll.go:163-180 | over every run after a rollback, the principal is enrolled again only if another enrollment of its own stores a new row |
| `EnrollAnswers.DeleteExact` | enroll/enroll.go:191-208 | a deletion removes its row, counts it out exactly if there was one, and touches nothing else; an aborted one changes nothing |
| `EnrollAnswers.ReturnExact` | enroll/enroll.go:387-394 | a refused row gives its code back |
| `EnrollAnswers.EndsAsDecided` | enroll/enroll.go:143-161 | a request reports as created exactly what it left the gate with |
| `EnrollAnswers.MintedValid` | enroll/enroll.go:560-577 | a new code is valid exactly until it expires |
| `EnrollAnswers.CollectExact` | meta/meta.go:302-307 | a collection changes the validity of no code at any later time, and keeps exactly the valid ones |

## Left out

- Transports, TLS, CORS, the command line and server assembly.
- SQLite, the vault and backups: a statement is an abstract outcome, a handle and a
  connection are identities.
- Cryptography: a MAC is an arbitrary function with 32-byte results, session ids and
  code hashes are fresh, and the derivation of a principal from its key is an
  arbitrary map (collisions included). Base64 and the token prefix are not modelled.
- Several readings of the clock within one call: the model takes one, and assumes a
  positive clock that never runs backwards.
- Wrap-around of 64-bit generations, sequence numbers and nanosecond times, and of the
  32-bit step index in cursor entries; the token format itself has its exact widths.
- Shutdown: `Registry.Close`, and the close hook of the registry; runs end before it.
- `Warm`, the listing calls and the background tickers, which only call what is
  modelled.
- Sessions' changeset capture, stored SQL texts, read-only and attach modes.
- Registering and forgetting databases in the change feed: one feed's lifetime.
- The keyring and the grants of an enrolled principal: a deletion removes the row first
  and revokes the key later, so no equivalence between the two is claimed.
- The per-address bucket of the enrollment endpoint, which evicts on truncated seconds.
- Rounding in the limiter: its arithmetic is over real numbers.
- Errors of the meta store: any operation may report one, but one that does is taken to
  have changed nothing.
- JSON and the value codecs; the client beyond its use of batons.
- Enroll.Service.EnrollLocked: speaks of the section undisturbed; a deletion or a code
  collection may touch the store inside it, and `EnrollRuns` covers those interleavings
  one store operation at a time.
- EnrollRuns.StepKeeps: the rollback's locked section is one step, and a gate's waiting
  queue is unordered.
