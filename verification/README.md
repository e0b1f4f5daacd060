# Verified model of the gateway's refresh manager, egress path and panel logic

The project models five parts of the repository in Dafny and proves what they promise for every
input, every interleaving and every clock.

**Credential refresh** (`worker/internal/oauth`, `worker/internal/credential`). `Credentials`,
`CredentialStore` and `StoreLaws` model the versioned credential document: `Decode` is what `Load`
reads, `Saved` what `Save` writes, and `Store.Save` performs the edits of `Save` one by one.
`TokenExchange` models one refresh request (section 6 of RFC 6749, error codes of section 5.2) and
the retry loop. `RefreshProtocol` is a state machine of any number of `Ensure` calls in any number
of processes over one credential file: singleflight, file lock, re-check under the lock, retry,
commit, publication, cancellation, crashes, a clock that may go anywhere, a token server that may
answer anything, and writers that ignore the lock. `RefreshInvariants`, `RefreshRuns`,
`RefreshFreshness` and `RefreshUpdates` prove properties of all its runs.

**SOCKS5 client and TCP splice** (`worker/internal/proxy`, `worker/internal/egress`). `Socks5` and
`Socks5Client` model the handshake byte for byte (sections 3 to 6 of RFC 1928, section 2 of
RFC 1929) on a connection that delivers the server's bytes in arbitrary fragments. `Splice` models
the two copy loops as a state machine with a shared idle deadline.

**Template language** (`web/src/lib/persona-template.ts`, `web/src/lib/persona-zero-fields.ts`).
`Json` and `JsonRoundTrip` model JSON text (RFC 8259), `TemplateLines` the JSONL line parser and
printer, `Scanner` and `TemplateVars` the placeholder pattern, `Templates` the validator,
`TemplateRender` the renderers, `ZeroFields`, `ZeroForm`, `ZeroLens` and `ZeroOrder` the form over
the zero template, whose writer changes fresh copies of the blocks in place.

**Slot status and pool quota** (`web/src/lib/vm-status.ts`, `web/src/lib/pool-quota.ts`,
`web/src/lib/format.ts`). `SlotStatus` models the separately written branch chains, `SlotCounts` and
`PoolQuota` the aggregates. The clock and the status-text regular expressions are parameters, so the
results hold for any of them.

**Slot numbers** (`web/src/lib/vm-name.ts`): `SlotName`.

`Wrappers`, `Text` and `Decimal` hold the types, the text operations and the number notation that the
parts share.

Where a natural property does not hold of the code, the project states exactly when it does:

- The type of a saved credential survives `Load` if and only if no API key and no contradicting
  nested type is left in the document (`StoreLaws.KindSurvives`); a setup token drops the stored
  refresh token if and only if no snake_case spelling of it is left (`StoreLaws.SetupTokenDropsRefresh`).
- A splice read can time out although the other direction has just read bytes, but only while that
  loop is between its read and its re-arming (`Splice.TimeoutMeansIdle`); `Splice.EarlyTimeoutExactly`
  says exactly when.
- Reading the zero form after a patch gives the fields asked for if and only if the resulting cache
  TTL is nonblank and trimmed (`ZeroLens.ReadAfterApply`).
- The source calls the order of keys part of its contract. For nonblank TTLs two patches of the zero
  form always compose up to that order, and in that order if and only if no slot's keys change places
  (`ZeroOrder.PatchesComposeExactly`). A flag that goes off and on moves to the end of its block, so
  for the first two slots it must be absent, or last with the text present; for the agent the cache
  setting must be there too; for the caller the places of its two flags must agree.
- A slot with a token that is grouped as pool is usable if and only if the backend reported an
  availability or the credential status does not call it dead (`SlotStatus.PooledUsable`,
  `SlotStatus.PooledButDead`). Conversely `SlotStatus.InvalidButUsable` says exactly which slots are
  grouped as bad and yet usable, so that they still count in the pool quota.

## Model

| member | source | states |
|---|---|---|
| `RefreshProtocol.Refresher.Begin` | worker/internal/oauth/refresher.go:69-86 | entering either joins the flight in progress or starts one, as the state machine's entry step says |
| `RefreshInvariants.InvKept` | worker/internal/oauth/refresher.go:68-151 | every step of every caller and of the environment keeps the invariant: lock ownership, one leader a process, flights published once, waiters have a live leader or a closed channel, the recorded outcome is the latest flight's |
| `RefreshInvariants.Reachable` | worker/internal/oauth/refresher.go:68-151 | the invariant holds in every state of every run |
| `RefreshInvariants.LastIsLatest` | worker/internal/oauth/refresher.go:89-94 | every flight of a process is at or before the one whose outcome is recorded |
| `RefreshRuns.AtMostOneLeader` | worker/internal/oauth/refresher.go:68-96 | in every reachable state a process has at most one leader |
| `RefreshRuns.ChannelClosedOnce` | worker/internal/oauth/refresher.go:84-94 | no in-flight channel is closed twice in any run |
| `RefreshRuns.BlockedOnlyByLiveLeader` | worker/internal/oauth/refresher.go:70-83 | a follower is blocked only while the leader that made its channel, in its own process, is unfinished |
| `RefreshRuns.FollowerOutcome` | worker/internal/oauth/refresher.go:70-83 | a follower that returns takes along, marked shared, the outcome of a flight published at or after the one it joined, and leaves without one only if it was cancelled; a leader that returned has closed its channel |
| `RefreshRuns.PublishReleases` | worker/internal/oauth/refresher.go:89-94 | publishing closes an open channel, ends the flight, makes its outcome the latest of the process and lets every caller waiting for it go on |
| `RefreshRuns.ShareIsLatest` | worker/internal/oauth/refresher.go:75-81 | a woken follower takes along the latest outcome published in its process, marked shared, and its channel is closed |
| `RefreshRuns.HoldHistory` | worker/internal/credential/store.go:261-286 | whoever acts inside the lock acquired it at an earlier step and has been its only holder since |
| `RefreshRuns.LoadHistory` | worker/internal/oauth/refresher.go:106-110 | a caller working on a credential loaded exactly that credential from the file under its present lock hold |
| `RefreshRuns.DecisionHistory` | worker/internal/oauth/refresher.go:111-125 | a caller requesting a token decided earlier, without leaving the request since, that the loaded credential needs one |
| `RefreshRuns.RequestUnderLock` | worker/internal/oauth/refresher.go:98-151 | every token request in every run is sent under the file lock, after a load and a decision made under the same hold |
| `RefreshFreshness.GrantLasts` | worker/internal/oauth/refresher.go:118-121 | a stored grant with an expiry leads to no request at any later clock and skew unless that expiry is near |
| `RefreshFreshness.NoRequestBeforeExpiry` | worker/internal/oauth/refresher.go:98-151 | after a stored refresh, with no outside writer and no forced call, no process sends a request until a decision reads a clock at expiry minus skew |
| `RefreshFreshness.NoSaveAfterCancellation` | worker/internal/oauth/refresher.go:126-145 | a call cancelled before its last context check stores nothing in any continuation of the run |
| `RefreshFreshness.RecheckDetectsSaves` | worker/internal/oauth/refresher.go:126-137 | at the re-check after a failed refresh the generation differs if and only if some other writer saved since the load |
| `RefreshUpdates.NoLostUpdate` | worker/internal/oauth/refresher.go:106-149 | in every run without outside writers each save goes over the document that is in the file at that moment |
| `RefreshUpdates.GenerationGrowsAlong` | worker/internal/oauth/refresher.go:106-149 | along such a run the file's generation never goes back, and it has grown between two steps if and only if a refresh was stored between them |
| `RefreshUpdates.SaveOverCurrent` | worker/internal/oauth/refresher.go:106-149 | in every run a save goes over the document loaded under the same lock hold, which is still the one in the file if and only if no outside writer has saved since |
| `TokenExchange.RequestWithRetry` | worker/internal/oauth/refresher.go:153-182 | between 1 and N requests, none after a success or a final refusal, fewer than N only after one, and, for up to 36 requests, a total backoff between 300(2^(k-1)-1) ms and that plus 150(k-1) ms |
| `TokenExchange.BackoffExact` | worker/internal/oauth/refresher.go:161-162 | the doubling is exact in 64-bit arithmetic up to attempt 35 and wraps to a negative wait at the next |
| `TokenExchange.GrantIsValid` | worker/internal/oauth/refresher.go:232-256 | a grant is a usable OAuth credential that keeps the generation it was asked for |
| `Credentials.KindTextReadsBack` | worker/internal/credential/store.go:41-50 | the stored spelling of each type normalises to that type |
| `Credentials.SchemeSettles` | worker/internal/credential/store.go:56-68 | a normalised scheme stays what it is, whatever type it is normalised for again |
| `CredentialStore.Store.Save` | worker/internal/credential/store.go:172-259 | the returned credential and the new file in each case of an invalid token and a write that fails before or after the replacement |
| `CredentialStore.Store.Stamp` | worker/internal/credential/store.go:179-201 | type, scheme and generation given to a credential on saving |
| `CredentialStore.Store.Compose` | worker/internal/credential/store.go:181-249 | the edits made one after the other give the document of the specification |
| `CredentialStore.Store.UpdateOauth` | worker/internal/credential/store.go:224-248 | every entry of the nested object is changed, dropped or kept as specified |
| `CredentialStore.StringListReadsBack` | worker/internal/credential/store.go:408-425 | a stored list of scopes reads back as it was |
| `CredentialStore.EntryAfterSave` | worker/internal/credential/store.go:224-248 | each entry is what the save puts there; entries it does not own are untouched |
| `StoreLaws.EncodedShape` | worker/internal/credential/store.go:179-249 | four top-level keys are written and every other one is untouched |
| `StoreLaws.LoadAfterSave` | worker/internal/credential/store.go:116-165 | loading after saving with a nonzero generation gives every field saved, and for an empty field what the document held earlier |
| `StoreLaws.RoundTrip` | worker/internal/credential/store.go:172-259 | for trimmed texts, an expiry of 0 or at least 10^10 and nothing left over, loading returns exactly the credential that saving reported |
| `StoreLaws.KindSurvives` | worker/internal/credential/store.go:129-149 | the type survives if and only if no API key and no contradicting nested type is left |
| `StoreLaws.SetupTokenDropsRefresh` | worker/internal/credential/store.go:225-229 | a setup token saved without refresh token drops the stored one if and only if no alias of it is left, in any document |
| `StoreLaws.ApiKeyAfterSave` | worker/internal/credential/store.go:183-211 | a saved API key loads as such, with its generation, whatever the document held |
| `StoreLaws.GenerationPasses` | worker/internal/credential/store.go:217-223 | the new generation passes the stored one if and only if the 64-bit increment does not wrap, and is at least the clock |
| `StoreLaws.SavedIsAnchored` | worker/internal/credential/store.go:194-249 | any save leaves the generation where the next save of its kind looks for it |
| `StoreLaws.GenerationGrows` | worker/internal/credential/store.go:194-201 | one save over such a document increases the stored generation, to at least the clock |
| `StoreLaws.GenerationsIncrease` | worker/internal/credential/store.go:217-249 | over every run of saves, whatever the clock does, the stored generation strictly increases and is at least the clock at each save |
| `StoreLaws.FreshAfterSave` | worker/internal/credential/store.go:87-105 | a credential stored with an expiry needs refresh after loading only when that expiry is near |
| `Splice.Classify` | worker/internal/egress/server.go:219-252 | a timeout anywhere wins, otherwise the first error that is not a normal end, otherwise none; the class depends only on the collection of errors |
| `Splice.CopyOne` | worker/internal/egress/server.go:182-206 | what one loop has written when it stops, which answer stopped it and with what error |
| `Splice.LoopInvKept` | worker/internal/egress/server.go:182-206 | each step of a loop keeps its bytes conserved, and nothing changes after the half-close |
| `Splice.Conservation` | worker/internal/egress/server.go:166-217 | in every schedule the bytes written are an in-order prefix of the bytes read in that direction |
| `Splice.DeliveredBeforeHalfClose` | worker/internal/egress/server.go:186-204 | a direction half-closed without a write error has delivered every byte, including those read together with the error |
| `Splice.ReturnsAfterBothEnd` | worker/internal/egress/server.go:207-216 | the splice returns only after both loops ended and half-closed, with the class of their two errors in either order |
| `Splice.DeadlineHolds` | worker/internal/egress/server.go:171-179 | clock and deadline never go back and the deadline is at most one idle period ahead |
| `Splice.TrafficIsArmed` | worker/internal/egress/server.go:186-195 | a loop that got beyond a read with bytes has re-armed the deadline in between |
| `Splice.TimeoutMeansIdle` | worker/internal/egress/server.go:166-217 | a read times out only a whole idle period after any byte was read in either direction, except for a loop still between read and re-arming |
| `Splice.NoEarlyTimeout` | worker/internal/egress/server.go:171-179 | no read times out before the idle period has passed since the start |
| `Splice.EarlyTimeoutExactly` | worker/internal/egress/server.go:171-195 | just after bytes were read in one direction, some continuation times out within less than an idle period if and only if the deadline lies before that and the other loop can come to a read without re-arming it |
| `Splice.TimeoutDespiteTraffic` | worker/internal/egress/server.go:186-195 | for every idle period there is a run with such an early timeout |
| `Socks5.AcceptedIffReadable` | worker/internal/proxy/socks5.go:42-53 | a dialer is accepted if and only if a reference server can read its user name and password back |
| `Socks5.BuildConnectRequest` | worker/internal/proxy/socks5.go:174-203 | the appended bytes are the request of the specification, with the same errors for port and name |
| `Socks5.BuildAuthRequest` | worker/internal/proxy/socks5.go:153-160 | the appended bytes are the authentication request of the specification |
| `Socks5.AuthReadsBack` | worker/internal/proxy/socks5.go:153-160 | a reference server recovers user name and password of every accepted dialer, no length byte wraps |
| `Socks5.ConnectReadsBack` | worker/internal/proxy/socks5.go:174-203 | a reference server recovers address and port of every request, which has at most 262 bytes |
| `Socks5.ConformingAccepted` | worker/internal/proxy/socks5.go:103-151 | every conforming success exchange followed by any tunnel data succeeds and leaves exactly the tunnel data |
| `Socks5.AcceptedConforms` | worker/internal/proxy/socks5.go:103-151 | nothing else is accepted: a stream that passes starts with a conforming exchange |
| `Socks5Client.Conn.ReadFull` | worker/internal/proxy/socks5.go:113-115 | exactly n bytes under every fragmentation, or failure at the end of the stream |
| `Socks5Client.DiscardAddress` | worker/internal/proxy/socks5.go:205-223 | consumes exactly the bound address and port of each address type, or reports the error |
| `Socks5Client.Authenticate` | worker/internal/proxy/socks5.go:153-172 | sends the request and judges the reply as specified |
| `Socks5Client.Open` | worker/internal/proxy/socks5.go:104-129 | greeting, method selection and authentication as specified |
| `Socks5Client.AwaitReply` | worker/internal/proxy/socks5.go:137-150 | the reply is consumed and judged as specified |
| `Socks5Client.Negotiate` | worker/internal/proxy/socks5.go:103-151 | outcome, bytes sent and bytes left unread depend on the server's bytes only, not on how they are cut into reads |
| `Socks5Client.NegotiateConforming` | worker/internal/proxy/socks5.go:103-151 | a conforming exchange succeeds under every fragmentation, leaves the tunnel data unread, and the messages sent read back as the target |
| `JsonRoundTrip.ParsePrint` | web/src/lib/persona-template.ts:405-433 | parsing a printed JSON value gives the value |
| `JsonRoundTrip.ParsedProper` | web/src/lib/persona-template.ts:405-405 | whatever parses has proper numbers and distinct names, so it can be printed and parsed again |
| `JsonRoundTrip.PrintOneLine` | web/src/lib/persona-template.ts:433-433 | printed JSON holds no line break |
| `TemplateLines.LinesCover` | web/src/lib/persona-template.ts:399-399 | lines and breaks interleaved are the text, no line holds a line feed or the carriage return of its break |
| `TemplateLines.LinesUnique` | web/src/lib/persona-template.ts:399-399 | only one cutting has these properties |
| `TemplateLines.ParseTemplate` | web/src/lib/persona-template.ts:393-418 | the loop collects the blocks and the errors of the lines' verdicts |
| `TemplateLines.ErrorsExact` | web/src/lib/persona-template.ts:400-416 | the errors are exactly the faulty lines, numbered from 1, strictly increasing |
| `TemplateLines.BlocksExact` | web/src/lib/persona-template.ts:400-416 | the blocks are the values of block lines in the order of the lines |
| `TemplateLines.BlocksComplete` | web/src/lib/persona-template.ts:400-416 | no block line is missed |
| `TemplateLines.LinesPartition` | web/src/lib/persona-template.ts:400-416 | every line is exactly one of skipped, block and error |
| `TemplateLines.StringifyParses` | web/src/lib/persona-template.ts:425-435 | parsing the printed form of any list gives its objects back in order, without an error |
| `TemplateLines.Reparse` | web/src/lib/persona-template.ts:393-435 | for any text, numbers taken as their literals, printing what was parsed and parsing again gives the same blocks and no error |
| `Scanner.FindExact` | web/src/lib/persona-template.ts:439-441 | the search finds exactly the leftmost match |
| `Scanner.FindNothing` | web/src/lib/persona-template.ts:439-441 | the search finds nothing exactly when no position matches |
| `Scanner.MatchAll` | web/src/lib/persona-template.ts:438-442 | the loop lists the groups of all matches in order |
| `Scanner.ReplaceAll` | web/src/lib/persona-template.ts:591-594 | the loop gives the literals interleaved with the values |
| `TemplateVars.MatchExact` | web/src/lib/persona-template.ts:101-101 | a text starts with a placeholder if and only if the matcher says so, with the same name and length |
| `TemplateVars.FindVarExact` | web/src/lib/persona-template.ts:101-101 | what is found is the leftmost placeholder, and nothing is found exactly when there is none |
| `TemplateVars.TextSplits` | web/src/lib/persona-template.ts:437-443 | any text is, in exactly one way, its literals interleaved with its leftmost placeholders |
| `TemplateVars.ExtractTemplateVars` | web/src/lib/persona-template.ts:437-443 | the names of those placeholders, in order and in lower case |
| `TemplateVars.FillTemplateVars` | web/src/lib/persona-template.ts:587-595 | those literals interleaved with the looked-up values |
| `TemplateVars.FillStep` | web/src/lib/persona-template.ts:591-594 | filling goes on behind the placeholder and never looks into the value it put in |
| `TemplateVars.FillAgrees` | web/src/lib/persona-template.ts:587-595 | two maps that agree on the extracted names give the same text |
| `TemplateVars.FillNothing` | web/src/lib/persona-template.ts:587-595 | a text without names is unchanged |
| `Templates.CheckText` | web/src/lib/persona-template.ts:486-514 | the problems of one text, in the order of the checks |
| `Templates.CheckBlocks` | web/src/lib/persona-template.ts:475-515 | the problems of all blocks, the total length and the number of wrappers |
| `Templates.ValidatePersonaTemplate` | web/src/lib/persona-template.ts:453-524 | the whole report |
| `Templates.AcceptedExactly` | web/src/lib/persona-template.ts:453-524 | a list is reported without a problem if and only if every block is fine, the limits hold and a nonempty overlay has exactly one wrapper |
| `TemplateRender.RenderPersonaTemplate` | web/src/lib/persona-template.ts:603-619 | the filled blocks in order, without those dropped when blank |
| `TemplateRender.AcceptedPersona` | web/src/lib/persona-template.ts:603-619 | an accepted persona template never reaches the fallback, and maps that agree on the registered names render the same blocks |
| `TemplateRender.Collect` | web/src/lib/persona-template.ts:625-635 | the nonblank bodies in order and the first wrapper |
| `TemplateRender.RenderOverlayTemplate` | web/src/lib/persona-template.ts:621-640 | the wrapper filled around the joined bodies, or the bodies alone, or nothing |
| `TemplateRender.WrapperPlaceIsFree` | web/src/lib/persona-template.ts:621-640 | the result does not depend on where the single wrapper stands |
| `TemplateRender.AcceptedNeverFallsBack` | web/src/lib/persona-template.ts:505-508 | in an accepted overlay template every name looked up is in the map it is looked up in |
| `TemplateRender.AcceptedOverlay` | web/src/lib/persona-template.ts:621-640 | for an accepted template the result is empty or its only wrapper filled around the other blocks' nonblank bodies joined in order |
| `TemplateRender.FilledAround` | web/src/lib/persona-template.ts:639-639 | every occurrence of the body's name becomes the body, every other name its value |
| `TemplateRender.WrapperShowsBody` | web/src/lib/persona-template.ts:494-498 | the body is a contiguous part of what an accepted wrapper renders to, so the result is empty only if all bodies are blank |
| `TemplateRender.FollowingKeepsMeaning` | web/src/lib/persona-template.ts:527-548 | storing a draft and resolving it gives the draft's blocks, and exactly an empty draft or one equal to the preset follows the preset |
| `ZeroLens.GetFlag` | web/src/lib/persona-zero-fields.ts:85-88 | after setting a flag its key reads as asked and every other key as before |
| `ZeroForm.RawBlock.PatchAgentCache` | web/src/lib/persona-zero-fields.ts:97-111 | the cache setting is changed in place as specified, and removed when nothing is left of it |
| `ZeroForm.WriteSlot` | web/src/lib/persona-zero-fields.ts:90-95 | finds or adds the slot's block and writes its fields, all other blocks unchanged |
| `ZeroForm.ApplyZeroFields` | web/src/lib/persona-zero-fields.ts:116-144 | the result holds what the specification says, in new objects |
| `ZeroLens.FoundExactly` | web/src/lib/persona-zero-fields.ts:44-50 | a slot is found at an index if and only if that block is the first to carry its id |
| `ZeroLens.ReadAfterApply` | web/src/lib/persona-zero-fields.ts:66-144 | reading after a patch gives the old fields overridden by the patch, if and only if the resulting TTL is nonblank and trimmed |
| `ZeroLens.PatchesCompose` | web/src/lib/persona-zero-fields.ts:116-144 | two patches in turn have the effect of one, up to the order of keys |
| `ZeroOrder.PatchesComposeExactly` | web/src/lib/persona-zero-fields.ts:116-144 | they give the very same blocks, keys in the same order, if and only if a condition on each slot's keys and the flags asked for holds |
| `ZeroOrder.SlotOrder` | web/src/lib/persona-zero-fields.ts:125-141 | the condition for one slot's block, written with some fields and then with others |
| `ZeroOrder.KeysChangePlaces` | web/src/lib/persona-zero-fields.ts:116-144 | a template and two patches for which the order differs |
| `ZeroLens.EmptyPatchSettles` | web/src/lib/persona-zero-fields.ts:116-144 | after any patch the empty patch changes nothing, not even the order of keys |
| `ZeroLens.RestUntouched` | web/src/lib/persona-zero-fields.ts:116-144 | places of blocks, other blocks and keys the form does not own are unchanged |
| `ZeroOrder.FlagTwice` | web/src/lib/persona-zero-fields.ts:85-88 | setting a flag twice is setting it once, keys in the same order, if and only if it is not turned off and on, or is absent or last |
| `SlotStatus.Pct` | web/src/lib/format.ts:1-11 | the percentage lies in [0, 100] |
| `SlotStatus.DeadGrantNeverUsable` | web/src/lib/vm-status.ts:112-166 | a parked-dead or revoked grant is grouped bad or revoke and is never usable; a slot is grouped revoke if and only if it is revoked |
| `SlotStatus.PooledTicket` | web/src/lib/vm-status.ts:464-496 | what the pool chain takes in is alive for the account chain unless the credential status calls it dead |
| `SlotStatus.PooledUsable` | web/src/lib/vm-status.ts:429-508 | a slot with a token grouped as pool is usable if and only if it has a backend availability or its credential status does not call it dead |
| `SlotStatus.PooledButDead` | web/src/lib/vm-status.ts:286-291 | a slot in the pool that is not usable |
| `SlotStatus.InvalidButUsable` | web/src/lib/vm-status.ts:429-508 | a slot is grouped as bad and yet usable exactly if the pool chain reads a dead ticket, a ban or an unusable availability where the account chain reads a cooldown or another availability key first |
| `SlotStatus.UnusableButUsable` | web/src/lib/vm-status.ts:459-462 | such a slot: an availability that is fine but not usable |
| `SlotStatus.ExpiredButUsable` | web/src/lib/vm-status.ts:464-476 | such a slot: an expired ticket without refresh that is cooling down |
| `SlotCounts.FleetCounts` | web/src/lib/vm-status.ts:572-584 | each counter is the number of slots of its group, and they add up to the list |
| `SlotCounts.VmBuckets` | web/src/lib/vm-status.ts:542-553 | each counter is the number of slots of its colour, and they add up to the list |
| `SlotCounts.HealthScore` | web/src/lib/vm-status.ts:620-627 | the rounded average of the points, in [0, 100], 100 when every slot is fine |
| `PoolQuota.UsedPctOf` | web/src/lib/format.ts:13-32 | the percentage lies in [0, 100] |
| `PoolQuota.SortedIsStable` | web/src/lib/pool-quota.ts:54-54 | a descending permutation that keeps the order of equally used segments |
| `PoolQuota.SortedSum` | web/src/lib/pool-quota.ts:54-55 | sorting does not change the total |
| `PoolQuota.BuildWindow` | web/src/lib/pool-quota.ts:49-67 | the segments so arranged, 0 <= used <= capacity, used plus remaining is the capacity, remaining percent in [0, 100] and proportional |
| `PoolQuota.ComputePoolQuota` | web/src/lib/pool-quota.ts:79-136 | every window balances over the eligible slots; 5h and 7d capacity equal eligible, Fable capacity <= eligible <= with token |
| `SlotName.CountUp` | web/src/lib/vm-name.ts:22-24 | the count ends at the least positive unused number, at most one more than the used ones |
| `SlotName.NextVmSeq` | web/src/lib/vm-name.ts:16-25 | the least positive number no slot has, at most one more than the number of slots |
| `SlotName.NameReadsBack` | web/src/lib/vm-name.ts:4-13 | a number printed as a name parses back |
| `SlotName.IdReadsBack` | web/src/lib/vm-name.ts:31-35 | a number printed as an id parses back |
| `SlotName.IdIsLegal` | web/src/lib/vm-name.ts:31-35 | ids hold legal characters only |
| `SlotName.NextGrows` | web/src/lib/vm-name.ts:16-25 | after a slot with the next number is added, the next number is larger |

## Left out

- HTTP, TLS, dialing, DNS listeners, telemetry, PTY control and the user interface: plumbing around the modelled parts, or only easy bounds.
- The checks for a missing store or client in `ensureLocked`: configuration errors before the protocol starts.
- The system calls behind the file lock and the atomic replacement: the lock is mutual exclusion, the replacement happens at once or not at all, with a failure possible before or after it.
- Texts of error messages, and the name and content of the token request.
- Floating point: credential numbers are exact integers, JSON numbers are kept as literals, percentages are real numbers; numbers that lose precision, underflow or overflow as doubles, and negative zero, are not modelled.
- The saturation of very long durations, and byte-level encodings of strings: strings are sequences of characters without unpaired surrogates, and an escaped unpaired surrogate parses as the replacement character.
- `Save` also changes the document map that its caller passed in; the model works on values, so that effect on a caller that keeps the map is not captured.
- A destination that is not a TCP connection is closed as a whole by the splice; the model has the half-close only, and what the other direction then reads is up to the environment.
- Moving both deadlines in `arm` is one step of the model.
- URL, host and IP parsing: addresses are IPv4, IPv6 or names of bytes.
- The order of integer-like keys in JavaScript objects, and objects whose own `toString` breaks conversion to text.
- TemplateVars.FillTemplateVars: inherited properties are modelled for ordinary objects only, whose lower-case ones are `constructor` and `__proto__`.
- The built-in templates' texts: the zero form takes the built-in blocks as a parameter.
- TemplateLines.Reparse: does not hold in the source for a number that overflows, such as 1e999, which is parsed as infinity and printed as null, nor for -0, which is printed as 0; the model keeps literals.
- ZeroLens.PatchesCompose: states equality up to the order of keys, because the order can differ (`ZeroOrder.PatchesComposeExactly` has the exact condition); blank cache TTLs are outside both.
- Slot status: date parsing and the regular expressions on status texts are inputs, a missing slot record and availability keys outside the declared seven are not modelled.
- SlotName.NextVmSeq: numbers are exact, beyond 2^53 the source's are not.
- Label tables, presets' labels, cache TTL aliases, tier and platform detection tables and the remaining formatters: finite lookups that a reading settles.
