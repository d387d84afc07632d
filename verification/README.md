# A Dafny model of the oracle's signing path

The oracle signs prices for on-chain orders. A signed price is good until its
expiry, so the server must never hand out one that the pricing producer has
already disowned, that is about to lapse, or that was made for another token.
No single place in the code checks all of that. The guarantees come from how
six pieces work together: the quote cache, the request pipeline, the reuse
cache, the signature cache, the live token reload and the subscription.

This project models those pieces and proves what holds over every run.

* A run is any sequence of actions. An action is one atomic step: taking or
  releasing a lock, a step under it, a read of a flag, a reading of the clock.
  Requests, price frames, halts, stale sources, sign tasks, reloads and the
  pricing session interleave in every way (`System.dfy`). An action whose guard
  fails changes nothing, so the theorems quantify over all sequences without
  exception.
* Rain Float arithmetic, keccak and the session tag bytes are function fields
  of a `Codec`. The theorems hold for all of them; only `ContextBindsItsTerms`
  and `SignedSessionIsOrdered` ask that integers encode injectively.
* A quote generation and a sign cell are numbers, standing for the identity of
  the `Arc` that the program shares.
* Code that updates state in place is also given as classes and loops
  (`QuoteCache`, `SignatureCache`, `ReuseCache`, `Reloader`, the window and the
  session loop), each proved equal to the function the theorems speak about.

| file | what it holds |
|---|---|
| `Wire.dfy`, `Text.dfy` | shared values; string order, case and addresses |
| `Deadlines.dfy`, `Sessions.dfy`, `Contexts.dfy` | deadline arithmetic, the signed session, the signed slots |
| `Registry.dfy`, `TokenFile.dfy`, `Reload.dfy` | the token mapping, the token file, reload against restart |
| `Quotes.dfy`, `Reuse.dfy`, `Signing.dfy`, `Subscription.dfy` | the caches, the sign tasks, the session deltas |
| `Batch.dfy` | the window, strict and envelope replies, the cost bound |
| `Slots.dfy`, `System.dfy` | the slot protocol and the whole server |
| `IdleUse.dfy`, `Boots.dfy` | what the signature cache keeps; which token files are accepted and what they come to |
| `Invariants.dfy`, `Frames.dfy` | the server's inductive invariant; what each action leaves alone |
| `Theorems.dfy`, `Halts.dfy`, `Gates.dfy`, `Guards.dfy` | over every run: safety of what is delivered, halts and reloads against it, stores against revocation, the checks made |
| `Meaning.dfy`, `Readings.dfy`, `Clocks.dfy`, `Arrivals.dfy`, `Replies.dfy` | over every run: what a response says, what the snapshots hold, where its times come from, which order and reply place a slot answers |
| `Projections.dfy` | over every run: the signer, the reloader and the subscription |
| `Progress.dfy`, `Endings.dfy`, `Witness.dfy` | a good quote is served, and again without signing; how failures end; a deployment that serves |

Two results differ from a first reading of the code.

* A signed expiry second times 1000 is at most the effective expiry if and only
  if the model's expiry is not before 1970 (`Deadlines.SignedExpiryFloors`):
  the cast truncates, so an expiry of -1 ms is signed as second zero
  (`Deadlines.SignsPastItsExpiry`), where the comment above `expiry_from_quote`
  (src/lib.rs:1269-1278) says such values are rejected. The model follows the
  code. A delivered item is never affected, since its deadline has passed the
  test on seconds.
* The signature map can end one entry above the most signs ever in flight, here
  with a cap of one: a sign that the scan saw in flight can end before the new
  one starts (`Signing.BoundIsTight`). So the extra one in the proved bound is
  needed.

## Model

The main results are marked; the other rows are what they rest on.

| member | source | states |
|---|---|---|
| `Theorems.DeliveredItemIsSafe` | src/lib.rs:410-488 | **Main.** in every run, a delivered item's signed second is after the one final time and within both deadlines of the second snapshot's quote; that quote prices the item's token in the settlement token of the set read last, which still maps the token to the symbol; both snapshots carry one generation; the context equals this request's own but for slots 2 and 8, expires no later, had the margin left if reused, holds its publish time in its session, and is signed over its own hash; the two snapshots and the set are what the cache and the reloader held at three steps of the run, in this order |
| `Theorems.NeverDisowned` | src/lib.rs:994-1045 | **Main.** from a delivered item's first snapshot to its last liveness read its symbol stayed cached under the one generation both snapshots carry, so no halt, stale source or forget touched it, although nothing compares the two |
| `Halts.NamedIsDisowned` | src/pricing_client.rs:243-253 | **Main.** in every run, once a halt, a stale source or a forget that named a key is over, the key is not cached, and no generation issued for it before is live then or ever after |
| `Halts.NothingElseIsDisowned` | src/pricing_client.rs:571-587 | and any other key is cached as before, the same quote under the same generation |
| `Halts.NothingDeliveredPastItsHalt` | src/lib.rs:422-462 | **Main.** no item is delivered if a halt, stale source or forget of its symbol began at or after its first snapshot and had ended before its last liveness read |
| `Meaning.DeliveredSaysItsTerms` | src/lib.rs:1715-1845 | **Main.** in every run, a delivered response carries slot for slot the version, the inverse of the order's own rate, the session, the two tokens and the NAV ratio or chain of this request's own quote and order; only slots 2 and 8 may be an earlier frame's; it is signed by this server over just that |
| `Arrivals.DeliveredAnswersItsOrder` | src/lib.rs:948-967 | **Main.** in every run, slot i of a request is delivered only for order i of the body it arrived with: slots 6 and 7 are that order's tokens |
| `Arrivals.ReplyAnswersTheBody` | src/lib.rs:920-1045 | **Main.** each place of a reply is a response for the order in that place, or an error, its own if it could not be read; a strict reply has one response for every order, in order |
| `Arrivals.ArrivalIsAnswered` | src/lib.rs:948-967 | an arriving request gets one item for each order in its place: the order's own error, the listed token it trades against the settlement token with the side it is on, or a bad request |
| `Arrivals.EveryRequestArrived` | src/lib.rs:948-967 | every request of a run arrived at some step, and still holds the items that answer what arrived |
| `Theorems.LiveMeansUnbroken` | src/pricing_client.rs:119-188 | **Main.** in the whole server, a generation seen at step i is live at step j exactly when its key stayed cached under it at every step between |
| `Theorems.ReadingsAreOfTheirTicks` | src/lib.rs:989-1024 | every request's two snapshots and token set are exactly what the cache held, for the symbols needed and then built, and what the reloader ran, at three recorded steps, in this order |
| `Readings.FirstSeesTheCache` | src/lib.rs:984-989 | the first snapshot holds the cached quote and generation of every item that resolved, or nothing if it was not cached |
| `Readings.SecondSeesTheCache` | src/lib.rs:1012-1017 | the second holds what was cached then of every item that ends up delivered |
| `Readings.AdmittedExactlyWhenCached` | src/lib.rs:991-996 | an item is admitted exactly when its symbol is cached at the first snapshot, and otherwise keeps its error or has no live quote |
| `Theorems.CachedSymbolsAreListed` | src/pricing_client.rs:551-559 | **Main.** whenever the reloader rests, every cached symbol on every chain is in the running set and the subscribed list, also when a frame passed its list check before the list changed |
| `Theorems.AppliedCopyForgets` | src/reload.rs:187-195 | a copy that is applied marks for forgetting exactly the running symbols whose row, symbol and address, it does not keep |
| `Theorems.ForgottenIsDisowned` | src/pricing_client.rs:290-296 | once an apply ends, every generation issued before for a forgotten symbol is revoked, on every chain, and none is cached; the eviction revokes key by key under the write lock and waits for held gates |
| `Gates.NothingEntersAfterRevocation` | src/pricing_client.rs:164-188 | **Main.** with taking the gate and reading the flag, inserting, and releasing as separate steps, and evictions revoking key by key: over every run, an entry of a generation revoked at step i that is in the map at a later step was there, the same, at step i |
| `Gates.LateStoreIsRefused` | src/reuse.rs:151-177 | over every run, a slot whose generation is revoked changes the reuse map no more, whichever step of its store comes next |
| `Gates.RevocationWaits` | src/pricing_client.rs:172-188 | no action clears the flag of a generation whose gate is held |
| `Gates.GatesHold` | src/pricing_client.rs:172-188 | in every reachable state a slot inside the gate holds its own generation's, and one that will insert has a live generation |
| `Gates.OneStoreAtATime` | src/pricing_client.rs:172-179 | in every run at most one slot is inside the gate of a generation |
| `Gates.ReuseNeverGoesBack` | src/reuse.rs:151-177 | **Main.** over every run of that machine the generation stored under a reuse key never moves back to an older one, and the key is never lost |
| `Gates.ReuseStaysInGeneration` | src/lib.rs:1781-1802 | a slot that reuses an entry reuses one of its own snapshot's generation that states the same thing |
| `Meaning.UnchangedPriceIsReused` | src/reuse.rs:112-147 | a response stored for the same order and generation, whose quote differs only in its mark and deadlines, is accepted when it dies no later and the margin is left |
| `Meaning.MovedPriceIsNotReused` | src/reuse.rs:50-56 | what is accepted equals the wanted context in every slot but 2 and 8 |
| `Meaning.KeysTellOrdersApart` | src/reuse.rs:64-71 | two orders share an entry exactly when schema, symbol, direction and both tokens agree |
| `Endings.UnchangedPriceIsSignedOnce` | src/lib.rs:1781-1845 | **Main.** from every boot, for two frames that differ only in mark and deadlines, some run answers an order after each with the very same response after a single signing call |
| `Gates.StoreIsSave` | src/reuse.rs:151-177 | with the gate free, the steps of a store in a row do what `ReuseCache.Store` does |
| `Projections.ServerSingleFlight` | src/sign.rs:134-186 | **Main.** in every reachable state of the server, across lookups, idle times, sweeps, cap drops, failures, deaths and evictions, at most one signing call per context hash is outstanding |
| `Projections.ServerMapStaysBounded` | src/sign.rs:146-169 | **Main.** in every run the server's signature map never exceeds the larger of the cap and one more than the signs in flight at some earlier state |
| `Projections.ServerSignsOnceWhileInUse` | src/sign.rs:134-156 | **Main.** in every run, two slots asking for one hash within the idle time wait on one cell and start one call, unless in between the cell was evicted for a failure or a lookup was at the cap with entries in use |
| `Projections.ServerReturnsOwnSignatures` | src/sign.rs:427-470 | **Main.** a slot is handed a cell of its own statement's hash that has not failed, and whatever the cell ever reports was produced by a call for that hash |
| `Projections.ServerNeverReturnsFailed` | src/sign.rs:500-510 | once a failure is broadcast no slot is ever handed that cell |
| `Projections.ServerRunsLikeRestart` | src/reload.rs:154-210 | **Main.** in every reachable state, if boot accepts the copy seen last, the running registry and symbols are what boot would build from it, and at rest so is the subscribed list |
| `Projections.ServerRunsOnlyAcceptable` | src/reload.rs:50-91 | **Main.** in every run, a copy read at rest becomes the running set exactly when it is acceptable; any other changes neither set nor list |
| `Projections.ServerConditionalRead` | src/reload.rs:231-271 | in every run, at rest, the generation excluded is the last one read; no upload is hidden, the last copy is not fetched again, the invalid state holds exactly while that copy is refused, and unchanged is exactly a 304, section 15.4.5 of RFC 9110 |
| `Projections.ServerSubscribesTheList` | src/pricing_client.rs:655-730 | **Main.** in every run, a session that has seen the latest list has sent frames that fold to the list in force, and at rest to the running set |
| `Projections.SessionCatchesUp` | src/pricing_client.rs:655-730 | a session opens on any list that is not empty, and an open one that wakes holds exactly the latest list, or has ended if that is empty |
| `Replies.RepliesFollowSlots` | src/lib.rs:982-1045 | the outcomes a reply is made of are those of the request's slots in the run: own error, or the response delivered |
| `Replies.StrictReplyIsDelivered` | src/lib.rs:480-486 | a strict reply succeeds exactly when every slot was delivered, with those responses in order |
| `Guards.ChecksWereMade` | src/lib.rs:1663-1879 | **Main.** every check behind a slot (admission, before lookup, before reuse, before signing, after signing) was made at an earlier step of the run, by this slot, on the same snapshot, and held then |
| `Clocks.TimesWereRead` | src/lib.rs:1776-1858 | in every run, the second of a reuse lookup and the time a reuse or a signature is checked at were read off the clock by this slot, at the step before that lookup or check |
| `Clocks.FinalTimeWasRead` | src/lib.rs:1018-1022 | the one final time of a request was read off the clock after its token set |
| `Guards.FailedCheckRefuses` | src/lib.rs:1441-1576 | a check that does not hold ends the slot, as no live quote or as expired, whichever that check reports |
| `Guards.QuoteCheckMeans` | src/lib.rs:1540-1581 | the expiry check passes exactly when the execution deadline is present and positive and both deadlines lie in a later second than the clock |
| `Progress.GoodQuoteIsServed` | src/lib.rs:920-1045 | **Main.** from every boot, for every order of a listed token and every unexpired quote that prices it and can be stated, some run delivers the order with exactly that statement and the signature produced |
| `Witness.SomethingIsDelivered` | src/lib.rs:920-1045 | a concrete token file, codec and quote under which boot succeeds and an item is delivered, so the safety theorems are about items that exist |
| `Endings.FailedSignLeavesNothing` | src/sign.rs:500-510 | a sign that fails ends its order with an error, and leaves no entry and no call |
| `Endings.DeadSignLeavesNothing` | src/sign.rs:456-464 | so does a sign whose task dies: its waiter evicts the entry |
| `Endings.DeadSignIsAlwaysDropped` | src/sign.rs:456-464 | the waiter of a dead task goes on only to drop it, even at its timeout |
| `Endings.GivingUpLeavesTheSign` | src/sign.rs:465-468 | a waiter that times out fails and leaves the sign running |
| `Endings.EvictionCanEnd` | src/pricing_client.rs:243-253 | an eviction under way can be finished once no store is inside a gate |
| `Endings.ReloadCanEnd` | src/reload.rs:187-200 | a reload that has swapped the set can be finished: the list follows and the reloader rests on the new set |
| `Progress.FinalRefusalIsNamed` | src/lib.rs:422-478 | when the final pass refuses, the reason is that of the first check that fails |
| `Progress.FinalPassExactly` | src/lib.rs:422-478 | the final pass delivers what was built if and only if mapping, both liveness reads, addresses and every deadline hold; otherwise the slot fails |
| `Progress.HeldCheckPasses` | src/lib.rs:1663-1879 | a check that holds is passed, so a slot is refused for the stated reasons only |
| `Progress.MappedIsListed` | src/token_file.rs:534-546 | after boot every mapped token's symbol is subscribed |
| `Invariants.StepKeeps` | src/lib.rs:920-1045 | every action of the server keeps the invariant over quotes, caches, requests, reload and the cache's write lock |
| `Slots.AdvanceKeeps` | src/lib.rs:1663-1879 | each reading step of a slot keeps what is known at that point, whatever the caches hold |
| `Slots.OwnQuoteKeeps` | src/lib.rs:422-452 | past the first half of the final pass the mapping stands, the deadline is ahead, and the current snapshot is of the slot's own generation |
| `Slots.CurrentQuoteKeeps` | src/lib.rs:449-478 | the second half delivers only what is safe in full |
| `Slots.SignedResponseOk` | src/lib.rs:1857-1879 | a freshly signed statement has its expiry at slot 8, a session that holds and a signature of its own hash |
| `Quotes.LivenessRefinesHistory` | src/pricing_client.rs:119-194 | **Main.** over every run of frames, a cached generation is live later exactly when its key stayed cached without a break, and then it is still the one cached |
| `Quotes.CacheRefinesHistory` | src/pricing_client.rs:523-590 | the cache holds exactly the newest price of every key that no halt, stale source or forget removed since |
| `Quotes.RevokedForGood` | src/pricing_client.rs:164-188 | a revoked generation never returns, as a flag or in an entry |
| `Quotes.LiveMeansCached` | src/pricing_client.rs:243-262 | a generation is live exactly when the key it was issued for is cached under it, so no two keys share one |
| `Quotes.EvictIsKeyByKey` | src/pricing_client.rs:243-253 | an eviction is its keys revoked and removed one after another, in any order |
| `Quotes.ApplyKeepsInv` | src/pricing_client.rs:243-262 | every frame and eviction keeps flags and entries in agreement and never revives a flag |
| `Quotes.QuoteCache.NewGeneration` | src/pricing_client.rs:145-154 | a new generation is unused, live, and belongs to its key |
| `Quotes.QuoteCache.Insert` | src/pricing_client.rs:255-262 | a frame for a cached key keeps its generation, otherwise a new one starts |
| `Quotes.QuoteCache.HaltKey` | src/pricing_client.rs:583-587 | a halt removes one key and revokes what was there |
| `Quotes.QuoteCache.EvictSymbols` | src/pricing_client.rs:243-253 | the retain loop removes and revokes every key of the given symbols and nothing else |
| `Quotes.QuoteCache.Snapshots` | src/pricing_client.rs:335-351 | the symbols asked for that are cached, each with its quote and generation |
| `Reuse.AcceptedEntryIsUsable` | src/reuse.rs:112-147 | a returned entry is of the asking generation, equals the wanted context but for the two timestamps and dies no later; the margin is left exactly unless the saturating sum was cut |
| `Reuse.StoreThenLookup` | src/reuse.rs:151-177 | what is stored under a live generation comes back to every request it is good for; other keys are untouched; a disabled or revoked store changes nothing |
| `Reuse.ReuseCache.Lookup` | src/reuse.rs:112-147 | returns the entry exactly when it is present, of this live generation, the same statement, no later and the margin ahead |
| `Reuse.ReuseCache.Store` | src/reuse.rs:151-177 | inserts exactly when reuse is on and the generation is live |
| `Reuse.CompareStatements` | src/reuse.rs:50-56 | the loop finds exactly the contexts of equal length that agree outside slots 2 and 8 |
| `Signing.MapStaysBounded` | src/sign.rs:146-169 | the bound above, for every run of the signer alone |
| `Signing.CacheAgreesWithSigning` | src/sign.rs:427-470 | what a lookup returns, for every run of the signer alone |
| `Signing.FailedCellNeverReturned` | src/sign.rs:500-510 | what a lookup never returns, for every run of the signer alone |
| `Signing.ApplyKeepsInv` | src/sign.rs:128-186 | every step keeps the invariant that ties the map to the cells and the tasks |
| `Signing.PeakIsReached` | src/sign.rs:146-169 | the recorded peak is the maximum of the signs in flight over the run |
| `Signing.BoundIsTight` | src/sign.rs:146-169 | a run whose map ends at one more than its peak |
| `Signing.InFlightIsNeverDropped` | src/sign.rs:146-156 | neither the sweep, nor the cap drop, nor another lookup removes an entry in flight |
| `Signing.LookupSignsOnlyWhenIdle` | src/sign.rs:134-172 | a lookup starts a call exactly when its hash has no entry in flight or within the idle time, and otherwise only renews that entry |
| `IdleUse.LookupTouchesNoOther` | src/sign.rs:146-156 | below the cap and with fewer than 256 inserts since the last sweep, a lookup changes no other entry |
| `IdleUse.LookupKeepsOthersInUse` | src/sign.rs:146-156 | sweep or not, a lookup keeps every other entry in use, unchanged, as long as those are below the cap |
| `IdleUse.InUseIsSignedOnce` | src/sign.rs:134-156 | over every run of the signer, a hash used within the idle time starts no new call, unless its cell was evicted or the cap was reached in between |
| `Signing.SweepLeavesNoIdleEntry` | src/sign.rs:146-156 | after a sweep every other entry is in flight or in use, and all are in flight if the cap is exceeded |
| `Signing.SweepIsRegular` | src/sign.rs:146-151 | over every run fewer than 256 inserts pass between sweeps |
| `Signing.EvictionIsPointerGuarded` | src/sign.rs:176-186 | an eviction removes the entry exactly if it is the given cell, and no other |
| `Signing.SignatureCache.SweepIdle` | src/sign.rs:150-151 | the retain loop keeps exactly the live slots |
| `Signing.SignatureCache.DropFinished` | src/sign.rs:152-155 | the retain loop keeps exactly the slots in flight |
| `Signing.SignatureCache.Miss` | src/sign.rs:146-171 | the new map, counter and cell after a miss |
| `Signing.SignatureCache.Lookup` | src/sign.rs:134-172 | the lookup is the two steps of the state machine taken at once |
| `Signing.SignatureCache.Evict` | src/sign.rs:176-186 | the eviction of the state machine |
| `Boots.BootsExactlyWhen` | src/token_file.rs:472-482 | **Main.** boot accepts a copy if and only if it parses, is of schema 1, has exactly one chain with the configured id, that chain settles in the configured token up to case, all its slots can be read and one is selected, the selected addresses parse, are no placeholders, distinct and not the settlement token, and the config lists no tokens itself and leaves nothing blank |
| `Boots.BootRunsTheFile` | src/token_file.rs:534-546 | what boot runs is the file: a token maps to a symbol exactly when a selected slot has that address and name, settlement is the configured token, and the listed symbols are the selected slots' |
| `Boots.KeepsTheSetExactlyWhen` | src/reload.rs:75-77 | the older set is kept for a newer copy exactly when every row of each is a row of the other |
| `Boots.UnacceptableChangesNothing` | src/reload.rs:160-169 | an unacceptable copy changes neither set nor list; an acceptable one becomes the running set |
| `Reload.LiveReloadEqualsRestart` | src/reload.rs:50-91 | **Main.** after any run from boot, if the last copy seen is valid, the running registry, symbols, projection, generation and, at rest, list equal what boot builds from that copy, also where an older set was kept for the same rows |
| `Reload.DecisionMatchesBoot` | src/reload.rs:50-108 | a copy is refused exactly when boot refuses it, with boot's error; the static-field and no-token-file backstops never fire; an applied set is boot's |
| `Reload.RefusedCopyChangesNothing` | src/reload.rs:160-169 | a refused copy changes neither set nor list, only the refusal mark |
| `Reload.ConditionalReadTracksLastSeen` | src/reload.rs:231-271 | the conditional read, for every run of the reload loop alone |
| `Reload.StepKeepsInv` | src/reload.rs:154-210 | every read and every apply step keeps the running set equal to boot's |
| `Reload.BootEstablishesInv` | src/token_file.rs:534-546 | boot starts from a set built from the copy it read |
| `Reload.Reloader.ApplyAll` | src/reload.rs:154-210 | the three ordered steps end in the decided set, its list and no quote of a removed or readdressed symbol |
| `TokenFile.ProjectionIsExact` | src/token_file.rs:151-227 | a projection is sorted, without repeats, not empty, and holds exactly the enabled raindex slots of the one matching chain |
| `TokenFile.ProjectsExactlyWhen` | src/token_file.rs:151-227 | a copy projects exactly when its schema is 1, one chain matches and names its quote token, every slot is readable and one is selected |
| `TokenFile.ProjectSlots` | src/token_file.rs:179-220 | the slot loop gives the sorted rows, or the first unreadable slot's error |
| `TokenFile.SortSorts` | src/token_file.rs:220 | sorting orders the rows by symbol and keeps them all |
| `TokenFile.CandidateIsBuiltFromRows` | src/token_file.rs:472-482 | a valid copy's registry depends on its projected rows and the quote token only |
| `TokenFile.SameRowsPointwise` | src/token_file.rs:84-98 | equal row sets are equal row lists up to address case |
| `TokenFile.SameRowsBuildTheSame` | src/token_file.rs:84-98 | two valid copies with the same rows build the same registry and symbol list |
| `TokenFile.ChangeForgetsExactly` | src/token_file.rs:549-565 | the removed and readdressed symbols are exactly those whose row the new copy does not have |
| `Registry.New` | src/registry.rs:69-84 | the insert loop builds the mapping, or fails on the first bad address |
| `Registry.ResolvedPairNamesTheOrder` | src/registry.rs:96-135 | a pair resolves exactly when one side is the settlement token and the other is listed, and the direction says which |
| `Registry.ResolveAgainstSettlement` | src/lib.rs:423-430 | resolving a token against the settlement token is reading the mapping |
| `Registry.RegistryHoldsTheRows` | src/registry.rs:69-84 | with distinct addresses no row is lost |
| `Registry.RegistryAddsNoRow` | src/registry.rs:69-84 | every mapped address is some row's |
| `Registry.MappingIgnoresCase` | src/registry.rs:69-84 | rows that differ in address case only build the same mapping |
| `Batch.BuildInWindow` | src/lib.rs:617-651 | **Main.** whatever the completion order, each index is produced once, in its place, with its own error or outcome; failed slots are never built; ten run at once, or all of fewer, and never more |
| `Batch.BuildInOrder` | src/lib.rs:610-616 | strict building stops at the first error in request order and starts nothing after it |
| `Batch.Revalidate` | src/lib.rs:410-488 | earlier failures pass through, each other slot gets its own check, and strict mode stops at the first error |
| `Batch.Finish` | src/lib.rs:668-704 | the envelope keeps every item in order; strict gives every payload or the first error |
| `Batch.Respond` | src/lib.rs:920-1045 | the handler from resolved slots to reply, in both modes |
| `Batch.StrictRefinesEnvelope` | src/lib.rs:668-704 | **Main.** strict succeeds exactly when every envelope slot does, with the same payloads; otherwise its error is that of the slot least by phase, then index |
| `Batch.SlotStartBound` | src/lib.rs:551-561 | slot k starts no later than floor(k/10) waits |
| `Batch.BatchCostBound` | README.md:389-396 | **Main.** a batch of N slots ends within ceil(N/10) waits |
| `Batch.AtMostTenRunning` | src/lib.rs:643-647 | at no time do more than ten slots run |
| `Batch.RunWindow` | src/lib.rs:617-651 | every list of durations has such a schedule |
| `Subscription.DeltaIsExact` | src/pricing_client.rs:700-724 | the deltas carry the server's set to the next list, never overlap, are never empty, and are absent exactly when nothing changed |
| `Subscription.FramesFoldToTheList` | src/pricing_client.rs:655-730 | over every run, skipped lists included, the frames of a session fold to exactly the list observed last |
| `Subscription.SessionEndsOnEmptyList` | src/pricing_client.rs:725-729 | the session ends exactly when the list it reads is empty, having unsubscribed everything |
| `Subscription.RunSession` | src/pricing_client.rs:655-730 | the loop's frames fold to the last list read, and it returns at the first empty one |
| `Contexts.BuiltContextHasLayout` | src/oracle.rs:283-601 | a built context has every slot of the published v5, v6 or v7 layout, each from this quote and this order |
| `Contexts.SlotsInOrder` | src/oracle.rs:370-601 | the builders push their slots in the order of the layout |
| `Contexts.ContextBindsItsTerms` | src/oracle.rs:445-601 | equal contexts have equal schema, tokens, expiry, publish time, session bounds and, in v7, chain; with injective encoders also equal rate, session tag and, in v6, NAV ratio |
| `Contexts.StatedExactlyWhen` | src/lib.rs:1690-1770 | a statement is made exactly when the session holds, the rate inverts (and in v7 is not zero) and every number encodes; otherwise the error says which |
| `Contexts.SignedSessionIsOrdered` | src/session.rs:29-60 | whatever the three session slots of a signed context decode to is ordered |
| `Contexts.BuiltSessionHolds` | src/session.rs:29-60 | the signed publish time lies between the signed session bounds |
| `Sessions.PublishTimeInSession` | src/session.rs:29-60 | start <= publish time <= end in whole seconds, though one truncates and the others floor |
| `Sessions.RefusedExactlyWhen` | src/session.rs:29-60 | the session is refused exactly when missing, not holding the mark, or bounded before 1970 |
| `Deadlines.EffectiveExpiry` | src/lib.rs:1284-1293 | the earlier of the two deadlines, refused exactly when the execution deadline is missing or not positive |
| `Deadlines.SignedExpiryFloors` | src/lib.rs:1279-1282 | the signed second is within the effective expiry if and only if the model's expiry is not before 1970 |
| `Deadlines.LastSecondBefore1970` | src/lib.rs:1279-1282 | every quote with an expiry in the last second before 1970 is signed with expiry zero, past its own, and no earlier one is |
| `Deadlines.SignsPastItsExpiry` | src/lib.rs:1269-1282 | one such quote: expiry -1 ms, deadline 1 ms |
| `Deadlines.LiveSecondsAreAhead` | src/lib.rs:1578-1581 | a deadline that passes, cut to whole seconds, is still after the checked time |
| `Deadlines.SecondsDecide` | src/lib.rs:1578-1581 | the test on seconds decides alone: it implies the test on milliseconds |
| `Deadlines.QuoteExpiryPasses` | src/lib.rs:1540-1576 | the quote check passes exactly when the effective expiry is live |
| `Text.AddressIgnoresCase` | src/registry.rs:69-84 | two spellings of an address that differ in case are one address |
| `Text.AddressParsesExactlyWhen` | src/registry.rs:69-84 | an address parses exactly when it is forty hexadecimal digits, with or without 0x |
| `Text.AddressRoundTrip` | src/registry.rs:69-84 | every address is read back from its digits, bare or prefixed |
| `Text.LowerForgetsCase` | src/token_file.rs:84-98 | folding makes two strings equal exactly when they differ in the case of A to Z only |
| `Text.LessAtFirstDifference` | src/token_file.rs:220 | the order of symbols is decided at the first difference |
| `Text.AscendingIsUnique` | src/token_file.rs:84-98 | a sorted list is determined by its elements |

## Left out

- Batch.BuildInWindow: the outcome of each build is given in advance; what a build does is the slot protocol of `Slots` and `System`, where the slots of one request may advance in any order, which covers both modes. `Replies` ties the outcomes of a reply to the slots of a run.
- Batch.RunWindow: finds start times by counting clock units; it shows that schedules exist, the source has only the window itself.
- Signing.SignatureCache.Lookup: the class runs a lookup with no task ending meanwhile; the state machine also covers tasks that end while the lock is held.
- Contexts.ContextBindsItsTerms: the rate, the tag and the NAV ratio only for injective encoders, because these belong to other libraries.
- Contexts.BuiltSessionHolds: some decoding of the slots is ordered; that all are is `SignedSessionIsOrdered`, for injective integers.
- The asynchronous builder in src/lib.rs is a step machine on values, not a class: its object identity and borrowing are not captured.
- Identity of shared `Arc` objects is a number; memory ordering of the liveness flag is taken as sequential. Reading the flag inside the gate is one step with taking it: no one else can change the flag in between.
- Rain Float parsing and inversion, keccak, the EIP-191 prefix, ECDSA, KMS and the bytes of the session tag: other libraries, kept as functions of the codec or as results of a signing call.
- The two attempts and the timeout inside one signing call are one step; the waiting timeout may strike at any moment while the sign is pending.
- Clock readings are at or after 1970, so the branch for an earlier system clock is absent.
- Error texts, metrics, logs and `/status`: no effect on what is signed.
- HTTP routing, body decoding, order bounds checks and query flags: a request starts from decoded orders, each with its token pair or its own error.
- The v1 and v4 endpoints, which only refuse.
- WebSocket, CBOR, ID tokens, the read deadline and reconnect backoff: a session is the frames it sends and may drop at any time.
- TOML parsing: a copy is an already parsed table, a field of the wrong type is an absent one, and a copy that does not parse is `None`.
- Bucket URLs, access tokens, size limits and boot's retries: a read is a status, a generation header and whether the body is usable.
- Case folding and white space are ASCII; the program folds addresses with Unicode rules, which agree on hexadecimal digits.
- That a delivered price is the newest one: the final pass does not compare rates, so this is not claimed.
