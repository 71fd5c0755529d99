# Forge licence authority: a verified model

This project models the licence authority of the repository, together with the clients that hold its licences, and
proves properties of whole runs of it. Every entity that the source updates in place is a class whose methods are
proved equal to a function from the old state to the new one; the theorems are about those functions and runs of them.

| part | files |
|---|---|
| Seats and leases: activation, renewal, the reaper, the expiry sweep, issuing, revoking, deleting | `Tables`, `EdgeProtocol`, `Edge`, `Worker`, `Issuance`, `Server`, `SeatLedger`, `Identity`, `Revocations`, `TokenLedger`, `EdgeRules`, `AuthorityRules`, and `Scenarios` for concrete runs |
| The same activations one database or cache operation at a time | `SeatRace`, `SeatCounter`, and `SeatRuns` for concrete runs |
| The revocation list | `Crl`, `CrlLedger` |
| Offline checks in Python, Go and Node | `OfflineVerifier`, `OfflineSdks`, `OfflineRules`, `OfflineRevocation` |
| Online clients | `OnlineClient`, `OnlineRules`; with the authority in `OnlineSurvival`, and `OnlineRuns` for concrete runs |
| The signed token: UTF-8, base64url (section 5 of RFC 4648), JSON (section 7 of RFC 8259 for strings), framing | `Codec`, `Json`, `JsonLaws`, `ForgeFile`, `FormatRules` |
| Operators: sessions, roles, administration, rate limits, login lockout | `OperatorProtocol`, `Operators`, `OperatorLedger`, `OperatorRules`, `RateLimit`, `LoginBounds` |

## How the model reads the source

- `Server.Step` has one step per call or job. In a serial run a call is one step, whose `lockFree` input says whether the
  seat lock was got in time. `StepStaleCommit` is the licence write of an activation that loaded the row before another
  transaction committed; theorems about serial runs exclude it, the others allow it. `SeatRace` splits an activation
  into load, lock, count, flush, release and commit, with expiry, crashes and a reaper that takes no lock.
- `EdgeProtocol` has an activation in two parts, `Admit` (the checks) and `Enter` (the seat and the lease, on the licence
  row as it was loaded), and a renewal likewise. `OnlineSurvival` lets anything happen between the two parts of a call;
  its bounds have the longest time a call may take between them as a parameter. A renewal refused by the rate limit of
  its route is an error on the way to the service there: to every client it is silence, within the same bounds. So is an answer
  that somebody else sends: any lease, but not signed by the authority.
- The modules named `...Rules` state what each operation answers and writes in the columns of the tables and the fields
  of the requests, with every number and code written out, so that no definition of the model is its own only measure.
- A renewal is never committed: of its writes only the cache entry of the new token lasts.
- The unique index on (licence, fingerprint) covers rows that are not soft-deleted, dead ones included. A write that
  collides aborts its transaction.
- The database's row order, new identifiers, the clock, the outcome of the seat lock and of key decryption, one-time
  codes and password hashes are inputs. New identifiers are new; clocks are stated as non-decreasing where a theorem
  needs it. Signing and verifying are function parameters: `verify` accepts exactly what `sign` produces.
- Time is in nanoseconds, so that Python's microseconds, Go's nanoseconds and Node's milliseconds are all whole.
- Identifiers are numbers; sorting lower-case hexadecimal strings of one length is sorting those numbers.

## Where the source does not do what it says

- A binding the reaper marks dead keeps its place in the unique index, so a host can never again activate under that
  fingerprint (`Identity.ReapedHostNeverReturns`, and `Identity.ReapedHostRun` as a run). An active binding with a uid
  refuses a request from the same host without one in the same way (`Identity.UidHostRun`). When exactly an activation
  is granted is `Identity.GrantedExactly`.
- An activation releases the seat lock before it commits, and the lock may expire under its holder; either exceeds
  every seat limit (`SeatRuns.ReleaseBeforeCommitExceedsLimit`, `SeatRuns.ExpiredLockExceedsLimit`). The seat counter is
  read before the lock and loses updates even when locked sections and commits never overlap
  (`SeatRuns.CounterLosesUpdate`); when exactly it stays right is `SeatCounter.CounterRightExactly`.
- An activation with an empty deployment uid inserts a row that the same request never matches again
  (`Identity.RepeatWithEmptyUidFails`, and `Identity.EmptyUidRun` as a run).
- Node rides the grace window on every refusal but `LICENSE_REVOKED` (`OnlineSurvival.NodeRidesGrace`, and
  `OnlineRuns.NodeStillUnlocked` as a run).
- A lease is minted some time after the revocation check, so a client may be unlocked by as much longer after a
  revocation (`OnlineRuns.DelayIsNeeded`).
- Go and Node measure a list's age to the instant, Python in whole days (`SdkAgreement.AgeBandDisagreement`). A binding
  field that is null, empty or no string is soft to Python but not to Go, and in part not to Node
  (`SdkAgreement.PythonAgainstGo`, `SdkAgreement.PythonAgainstNode`); the authority signs no such payload
  (`SdkAgreement.IssuedPayloadsAgree`).
- "Any byte change → signature fails" (`forge_file.py:12`) holds of the decoded bytes, not of the text. In both parts of
  a token the decoder ignores the unused bits of the last character, skips characters outside its alphabet, reads `+`
  and `/` as `-` and `_`, and stops at complete padding. `ForgeTokens.VerifiesExactly` and `ForgeTokens.TextsOfPayload`
  say exactly which texts verify; `ForgeTokens.SpareTextsVerify` and `ForgeTokens.SkippedTextVerifies` give families of
  changed texts that do.
- The rate limiter is described as sliding but counts aligned windows (`RateBounds.NotASlidingWindow`).
- The session store is described as logging an operator out everywhere on a password change; an operator's own change
  of password ends no session (`OperatorLedger.OwnPasswordKeepsSessions`).

## Model

| member | source | states |
|---|---|---|
| Edge.EdgeService.ActiveBindings | Project-source/forge-server/app/services/edge.py:109-115 | the active, undeleted bindings of the licence in the database's order |
| EdgeProtocol.ActiveRowsListing | Project-source/forge-server/app/services/edge.py:109-115 | whatever the order, that query returns each active binding once, so its length is the number of seats taken |
| Edge.EdgeService.FindBinding | Project-source/forge-server/app/services/edge.py:117-134 | uid, then exact fingerprint among rows without a uid, then at least two agreeing signals: the first fit of the first tier that has one |
| Edge.EdgeService.CountOverlap | Project-source/forge-server/app/services/edge.py:129-133 | the loop counts exactly the signals on which request and row agree |
| Edge.EdgeService.Seat | Project-source/forge-server/app/services/edge.py:157-197 | the section under the lock: refresh the match or insert below the limit, refuse a clone with an alert, abort on a collision |
| Edge.EdgeService.MintLease | Project-source/forge-server/app/services/edge.py:72-107 | the lease, its cache entry with the deadline lease plus grace, and, when the call commits, the lease row |
| Edge.EdgeService.Check | Project-source/forge-server/app/services/edge.py:139-143 | the checks before the lock, in their order: which licence is admitted, or the refusal |
| Edge.EdgeService.TakeSeatAndMint | Project-source/forge-server/app/services/edge.py:145-209 | everything after the checks, on the licence row as it was loaded then: lock, section, lease and commit, or rollback of the seat without a key |
| Edge.EdgeService.Activate | Project-source/forge-server/app/services/edge.py:136-209 | every answer of an activation and the whole database and cache after it |
| Edge.EdgeService.Validate | Project-source/forge-server/app/services/edge.py:211-242 | every answer of a renewal; only a cache entry is left behind |
| EdgeRules.AdmittedExactly | Project-source/forge-server/app/services/edge.py:53-70 | which licence a code is admitted for, in columns: the undeleted holder of the code, not revoked by status or row, before its end; and which of three refusals is given otherwise |
| EdgeRules.MatchExactly | Project-source/forge-server/app/services/edge.py:117-134 | which row stands for the installation, in columns: the first in the database's order by uid, else by fingerprint without a uid, else by two equal signals; the match is that row, and no other |
| EdgeRules.ActivationAnswers | Project-source/forge-server/app/services/edge.py:136-209 | every answer of an admitted activation by conditions that exclude each other: lock, another install id, no seat (with its alert), fingerprint held by another row, no key, granted |
| EdgeRules.ActivationRow | Project-source/forge-server/app/services/edge.py:162-198 | what a grant writes to the binding: the identity kept and taken over, heartbeat, lease end; no other binding changes |
| EdgeRules.ActivationCounts | Project-source/forge-server/app/services/edge.py:189-197 | what a grant writes to the licence: a seat for a new row, `active` and its time if it was issued; nothing else |
| EdgeRules.ActivationLease | Project-source/forge-server/app/services/edge.py:72-107 | the lease of a grant, in its answer, its row and the cache: 86400 seconds, and 345600 with grace, for the host of the request |
| EdgeRules.RenewalAnswers | Project-source/forge-server/app/services/edge.py:211-242 | every answer of a renewal whose token stands for a binding: binding gone or inactive, another fingerprint without a uid, another install id, licence lapsed, licence revoked, no key, granted |
| EdgeRules.RenewedExactly | Project-source/forge-server/app/services/edge.py:211-242 | when a renewal is granted, and when the lease is said to be expired, for every token |
| EdgeRules.RenewalWrites | Project-source/forge-server/app/services/edge.py:72-107 | the lease of a renewal, and that its cache entry is all that lasts |
| SeatLock.LockStore.Acquire | Project-source/forge-server/app/services/edge.py:145-156 | the lock is got at the first of fifty attempts that finds no live key, for ten seconds from then, or not at all |
| SeatLock.BusyMeansHeldThroughout | Project-source/forge-server/app/services/edge.py:145-156 | the busy answer is given exactly when a live key was found at every attempt |
| SeatLock.BusyForFiveSeconds | Project-source/forge-server/app/services/edge.py:145-156 | a key nobody touches is found at every attempt exactly if it lives for more than 4.9 seconds |
| Server.ActivateEffect | Project-source/forge-server/app/services/edge.py:136-209 | a refusal changes nothing but alerts; a grant took or reused exactly one seat of a usable licence and collides with nothing |
| Server.EnterEffect | Project-source/forge-server/app/services/edge.py:145-209 | the same of the part after the checks alone, whatever happened to the tables since: it takes or reuses one seat of that licence or changes nothing but alerts |
| Server.TablesOkRun | Project-source/forge-server/app/migrations/versions/000003_phase2_core_tables.py:118-142 | over every run: identifiers and codes stay unique, bindings belong to existing online licences, fingerprints are unique per licence, dead rows included |
| SeatLedger.SeatConservation | Project-source/forge-server/app/services/edge.py:174-197 | in every serial run each online licence's `seat_used` equals its number of active bindings and is at most `seat_limit` |
| SeatLedger.ReaperReleasesExactly | Project-source/forge-server/app/worker.py:149-175 | the guard `seat_used >= n` never fails and each licence gives back exactly the seats it lost |
| SeatLedger.RefusedSeatIsRecorded | Project-source/forge-server/app/services/edge.py:175-188 | a refusal for want of a seat records exactly `seat_limit + 1` identities and changes nothing else |
| Worker.Tasks.SelectStale | Project-source/forge-server/app/worker.py:149-158 | the query returns exactly the active bindings without a heartbeat for ten minutes |
| Worker.Tasks.CountPerLicense | Project-source/forge-server/app/worker.py:165-168 | the dictionary holds, per licence, the number of its bindings in the list |
| WorkerProtocol.TallyOfStale | Project-source/forge-server/app/worker.py:165-168 | that number is the size of the set of stale bindings of the licence |
| Worker.Tasks.ReleaseSeats | Project-source/forge-server/app/worker.py:169-174 | one guarded decrement per entry, whatever the order of the entries |
| Worker.Tasks.ReapDeadBindings | Project-source/forge-server/app/worker.py:137-178 | the whole job: exactly the stale bindings die and every licence gives back as many seats, if it has them |
| Worker.Tasks.SweepExpiredLicenses | Project-source/forge-server/app/worker.py:112-134 | exactly the licences past their end that are neither expired, revoked nor locked become expired, and their number is returned |
| AuthorityRules.ReapedExactly | Project-source/forge-server/app/worker.py:149-175 | a binding dies exactly if it is active, undeleted and silent for more than 600 seconds; no other column but the seat count changes |
| AuthorityRules.SweptExactly | Project-source/forge-server/app/worker.py:112-134 | a licence becomes expired exactly if its end is past and it is issued, active or expiring |
| Identity.IdentityUniqueness | Project-source/forge-server/app/services/edge.py:117-134 | in every run of whole calls, for all uids and signals, the active bindings of a licence have distinct identities |
| Identity.IdentityIsStable | Project-source/forge-server/app/services/edge.py:158-197 | over every run a binding's licence and uid never change, an install id once set never changes, a dead binding stays dead |
| Identity.RepeatReusesSeat | Project-source/forge-server/app/services/edge.py:158-197 | repeating a granted activation, at once or at any later instant before the licence's end, is granted with a lease on the same row; of all rows only that one's heartbeat and lease times change, no licence and no set of active bindings does. For every request without an empty uid or whose uid row already existed |
| Identity.RepeatWithEmptyUidFails | Project-source/forge-server/app/services/edge.py:117-134 | the other half: with an empty uid on a row just inserted the repetition is refused |
| Identity.EmptyUidRun | Project-source/forge-server/app/services/edge.py:117-134 | a run, for every seat limit: issue, activate with an empty uid, and the same request a second later is refused |
| Identity.GrantedExactly | Project-source/forge-server/app/services/edge.py:157-198 | with a usable licence, the lock and a key: granted if and only if no other undeleted row of the licence holds the fingerprint and the matching row has no other install id or, without a match, a seat is free; and which refusal otherwise |
| Identity.UidHolderBlocks | Project-source/forge-server/app/services/edge.py:117-134 | while a row with a uid holds a fingerprint, dead or active, no request from that fingerprint without a uid succeeds |
| Identity.UidHostRun | Project-source/forge-server/app/services/edge.py:117-134 | a run, for every seat limit above one: a host joins with a uid and is refused without one, with seats free and no dead row |
| Identity.DeadFingerprintBlocks | Project-source/forge-server/app/migrations/versions/000003_phase2_core_tables.py:137-142 | while a dead binding holds a fingerprint, no activation of its licence from that fingerprint succeeds |
| Identity.ReapedHostNeverReturns | Project-source/forge-server/app/worker.py:149-175 | so a reaped host is refused after every run, as long as the row exists |
| Identity.ReapedHostRun | Project-source/forge-server/app/worker.py:149-175 | a run, for every seat limit: a host joins, is reaped after eleven minutes, and the same request is refused with every seat free |
| Issuance.IssuanceService.IssueOnline | Project-source/forge-server/app/services/issuance.py:56-77 | every answer, and the new row in status issued with no seat used |
| Issuance.IssuanceService.IssueOffline | Project-source/forge-server/app/services/issuance.py:79-112 | every answer, the check of the deployment id first, and the new row active with its one seat |
| Issuance.IssuanceService.Revoke | Project-source/forge-server/app/services/issuance.py:114-131 | done exactly for an undeleted licence: it is then revoked, and has a revocation row carrying public identifier and mode unless it was revoked before; no other row changes |
| Issuance.IssuanceService.DeleteLicense | Project-source/forge-server/app/api/admin/v1/licenses.py:82-100 | no binding, lease or alert of the licence is left; every revocation row stays with public identifier, mode and stamp and only loses its reference |
| AuthorityRules.DeploymentIdExactly | Project-source/forge-server/app/services/issuance.py:13-15 | a deployment id is 64 lower-case hexadecimal digits, and perhaps a newline |
| AuthorityRules.OnlineOrder | Project-source/forge-server/app/services/issuance.py:56-77 | in the fields of the request: the refusals, and the row of an online order |
| AuthorityRules.OfflineOrder | Project-source/forge-server/app/services/issuance.py:79-112 | in the fields of the request: the refusals, and the row of an offline order |
| AuthorityRules.OnlineOrderAdmits | Project-source/forge-server/app/services/issuance.py:56-77 | the code ordered is admitted exactly until the end ordered, in every well-formed state |
| AuthorityRules.OfflineOrderUnlocks | Project-source/forge-server/app/services/issuance.py:79-112 | from the order to the host: the signed payload unlocks, in each of the three languages, exactly the deployment id ordered, until the end ordered, while the list does not name it |
| AuthorityRules.RevokeWrites | Project-source/forge-server/app/services/issuance.py:114-131 | every answer of a revoke, and every column it writes |
| AuthorityRules.DeleteWrites | Project-source/forge-server/app/api/admin/v1/licenses.py:82-100 | exactly the licence's bindings, leases and alerts go, those of others stay; revocation rows lose a reference at most |
| Revocations.LedgerRun | Project-source/forge-server/app/models/revocation.py:18-33 | in every run a revocation describes its licence, no two have the same public identifier, and status revoked implies a revocation |
| Revocations.AtMostOneRevocation | Project-source/forge-server/app/services/issuance.py:118-126 | so each licence has at most one revocation row |
| Revocations.OverIsFinal | Project-source/forge-server/app/services/edge.py:53-70 | a licence revoked, deleted or past its end stays so through every run, stale licence writes included |
| Revocations.GrantNeedsLiveLicense | Project-source/forge-server/app/services/edge.py:53-70 | no activation and no renewal is granted for such a licence |
| Revocations.RevocationSurvivesLostUpdates | Project-source/forge-server/app/services/edge.py:195-197 | after a successful revoke no later run, even one that puts the status back to active, reaches a grant for the licence |
| Revocations.CheckMatchesStatus | Project-source/forge-server/app/services/edge.py:53-70 | in every serial run the revocation check and the status agree on every licence, so it takes a lost update to part them |
| TokenLedger.TokensRun | Project-source/forge-server/app/services/edge.py:86-101 | in every run each token, in the cache or in its row, stands for a binding that was and, while it exists, is of the token's own licence |
| SeatRace.MutualExclusion | Project-source/forge-server/app/services/edge.py:145-156 | from `SET NX` and expiry alone: while every holder is within ten seconds, no two activations are in the section of one licence |
| SeatRace.SeatBoundUnderInterleaving | Project-source/forge-server/app/services/edge.py:145-208 | in every interleaving where holders release in time and commit before the lock is next taken, active bindings never exceed the limit |
| SeatRuns.StartIsReached | Project-source/forge-server/app/services/edge.py:139-143 | the runs below begin after both activations have loaded the licence, with nothing running before |
| SeatRuns.ReleaseBeforeCommitExceedsLimit | Project-source/forge-server/app/services/edge.py:199-208 | without the second condition, for every limit and all rows that leave one seat, a run with no delay at all takes one seat too many |
| SeatRuns.ExpiredLockExceedsLimit | Project-source/forge-server/app/services/edge.py:145-156 | without the first condition too, for every limit, though every commit comes in time |
| SeatRuns.CounterLosesUpdate | Project-source/forge-server/app/services/edge.py:139 | a run, from any number of seats taken, in which sections and commits never overlap: two seats are taken and the counter goes up by one |
| SeatCounter.CounterRightExactly | Project-source/forge-server/app/services/edge.py:139-208 | in every interleaving, lock or no lock: the counters equal the live bindings in every state if and only if each commit of a new binding finds as many live ones of the licence as there were when its activation loaded it |
| SeatCounter.CommitsAloneKeepCounter | Project-source/forge-server/app/services/edge.py:139-208 | so it is enough that no other commit of a new binding and no reap of the licence comes between an activation's load and its commit; without reaps it is also necessary |
| Crl.CrlService.Latest | Project-source/forge-server/app/services/crl.py:32-35 | the bundle with the highest version, or none |
| Crl.CrlService.SelectPublished | Project-source/forge-server/app/services/crl.py:44-48 | the public identifiers of the publishable revocations in the database's order |
| Crl.CrlService.Stamp | Project-source/forge-server/app/services/crl.py:60-66 | the loop stamps exactly the publishable revocations without a stamp |
| Crl.CrlService.Generate | Project-source/forge-server/app/services/crl.py:41-71 | the new bundle with the next version and the sorted list, and the stamps |
| AuthorityRules.ListWrites | Project-source/forge-server/app/services/crl.py:41-70 | a new list in columns: one more than the highest version, the time, the public identifiers of all offline revocations in order, and the stamps |
| CrlLedger.CrlRun | Project-source/forge-server/app/services/crl.py:41-70 | in every run in which generating a list is one step, versions are 1..n, lists are strictly ascending and name revoked offline licences only, and stamps are exact |
| CrlLedger.StampIsFirstListing | Project-source/forge-server/app/services/crl.py:60-66 | in such a run a revocation is listed in bundle v if and only if it has a stamp at most v, after its licence is deleted as well |
| CrlLedger.ListsAreNested | Project-source/forge-server/app/services/crl.py:44-48 | what a bundle lists every later one lists |
| CrlLedger.NextListIsComplete | Project-source/forge-server/app/api/admin/v1/licenses.py:92-96 | the next list names the identifier of every offline revocation row, its licence deleted or not |
| CrlLedger.RevocationIsPublished | Project-source/forge-server/app/services/crl.py:44-59 | after a successful revocation of an offline licence every list generated in any continuation names it, hard deletion of the licence included |
| CrlLedger.PublicIdsExact | Project-source/forge-server/app/services/crl.py:44-48 | the query names each such licence once and no other |
| OfflineVerifier.StateFile.VerifyOffline | verifier-sdk/python/forge_verifier/verifier.py:71-132 | every verdict and the state file after it |
| OfflineRules.PythonTerms | verifier-sdk/python/forge_verifier/verifier.py:121-132 | the verdict on a genuine token in its fields: binding, list, end, and the last 31 days |
| OfflineRules.PythonHardening | verifier-sdk/python/forge_verifier/verifier.py:98-108 | when a check locks, and why: a clock behind by more than the skew in minutes, an older list, a list a day past its age |
| OfflineRules.PythonCheck | verifier-sdk/python/forge_verifier/verifier.py:88-119 | what is answered without looking at the terms, when the state file is written, and that it then holds the greatest instants and versions |
| OfflineHistory.MemoryIsSummary | verifier-sdk/python/forge_verifier/verifier.py:96-119 | after every call sequence the watermark is the maximum of clocks and list dates over the calls that passed hardening, the version the maximum version |
| OfflineHistory.VerdictsFollowHistory | verifier-sdk/python/forge_verifier/verifier.py:96-119 | `clock_rollback` and `crl_rollback` are returned exactly when a function of the history alone says so |
| OfflineRevocation.ListedStaysLocked | verifier-sdk/python/forge_verifier/verifier.py:96-125 | once a check has consulted a list naming a licence, no later check for it is unlocked, whatever clock, bundle or limits it is given |
| OfflineRevocation.RevokedForGood | verifier-sdk/python/forge_verifier/verifier.py:120-125 | authority and state file together: after one answer `revoked` no check of any token for that licence is unlocked again |
| OfflineRevocation.RevocationReachesTheHost | verifier-sdk/python/forge_verifier/verifier.py:96-125 | from the operator's revoke to the host: once a check that got through the hardening has consulted any list generated since, neither it nor any later check on that state file unlocks a token of the licence |
| OfflineSdks.GoStateFile.VerifyOfflineOpts | verifier-sdk/go/forge/verifier.go:97-174 | every verdict and the state file after it, with the zero sentinels and hour arithmetic |
| OfflineSdks.NodeStateFile.VerifyOffline | verifier-sdk/node/src/verifier.js:38-80 | every verdict and the state file after it |
| OfflineRules.GoTermsExactly | verifier-sdk/go/forge/verifier.go:153-173 | the same verdict in Go: which binding fields are hard ones, and the last 30 days |
| OfflineRules.GoHardening | verifier-sdk/go/forge/verifier.go:111-131 | when a Go check locks, for all ages in 64 bits, and with ten minutes for no skew |
| OfflineRules.GoCheck | verifier-sdk/go/forge/verifier.go:97-151 | the Go check around them, with its state file cut to the second |
| OfflineRules.NodeTermsExactly | verifier-sdk/node/src/verifier.js:70-79 | the same verdict in Node |
| OfflineRules.NodeHardening | verifier-sdk/node/src/verifier.js:51-61 | when a Node check locks |
| OfflineRules.NodeCheck | verifier-sdk/node/src/verifier.js:38-68 | the Node check around them |
| OfflineRules.GoDefaultSkew | verifier-sdk/go/forge/verifier.go:113-121 | with no skew set, a Go check reports a rollback if and only if it is genuine, has a state file, and its clock is more than 600 seconds behind |
| OfflineRules.DefaultSkewAgreement | verifier-sdk/go/forge/verifier.go:113-121 | over every run of comparable calls Go with no skew set agrees with Python and Node with one of ten minutes |
| SdkAgreement.CrossSdkAgreement | verifier-sdk/go/forge/verifier.go:97-174 | over every run of comparable calls the three keep related state files and agree on unlocked, and on status but for `active` against `expiring` strictly between 30 and 31 days |
| SdkAgreement.AgeLimitAgreement | verifier-sdk/node/src/verifier.js:38-80 | a list is stale to Go and Node exactly as to Python, or its age is strictly between N and N+1 days |
| SdkAgreement.AgeBandDisagreement | verifier-sdk/go/forge/verifier.go:97-174 | with related state files they divide on unlocking if and only if the list's age is in that band, neither clock nor list went back, and the token is genuine, in force and for this host |
| SdkAgreement.TermsAgreement | verifier-sdk/python/forge_verifier/verifier.py:120-132 | on a well-formed payload Go and Node agree, and differ from Python exactly in the last-day band |
| SdkAgreement.PythonAgainstGo | verifier-sdk/go/forge/verifier.go:97-174 | on any payload: exactly which binding and fingerprint fields divide Python and Go on unlocking |
| SdkAgreement.PythonAgainstNode | verifier-sdk/node/src/verifier.js:38-80 | the same for Python and Node, of which only Python then unlocks |
| SdkAgreement.IssuedPayloadsAgree | Project-source/forge-server/app/services/issuance.py:79-112 | no payload the authority signs for an offline licence divides the three |
| OnlineClients.OnlineClient.AcceptLease | verifier-sdk/python/forge_verifier/online.py:56-72 | which leases are accepted, and what the client then keeps |
| OnlineClients.OnlineClient.Activate | verifier-sdk/python/forge_verifier/online.py:74-93 | the verdict on every answer and the cache after it |
| OnlineClients.OnlineClient.Revalidate | verifier-sdk/python/forge_verifier/online.py:95-115 | the verdict on every answer or silence, grace included, in each SDK |
| OnlineRules.ActivateVerdicts | verifier-sdk/python/forge_verifier/online.py:74-93 | an activation unlocks, and changes the cache, exactly on a success with a genuine signature; the other verdicts |
| OnlineRules.RevalidateVerdicts | verifier-sdk/python/forge_verifier/online.py:95-115 | a renewal unlocks exactly on such a success, or on an undecided answer while grace is left, with the five codes written out; the cache after it and the other verdicts |
| OnlineRules.ForgedLease | verifier-sdk/python/forge_verifier/online.py:56-63 | a lease the authority did not sign changes nothing and unlocks nothing |
| OnlineSurvival.ForgeryIsRefused | verifier-sdk/python/forge_verifier/online.py:56-63 | in every run, whenever such a lease is delivered |
| OnlineSurvival.DefinitiveCodeClosure | verifier-sdk/go/forge/online.go:36-39 | where tokens stand for their own licences, as in every run, renewal with the token of a licence revoked, deleted or past its end fails on every path with a code definitive to Python and Go, so they do not unlock even with grace left |
| OnlineSurvival.LaterRenewalsLock | verifier-sdk/python/forge_verifier/online.py:95-115 | over whole runs: once a licence is over, every later renewal by a Python or Go client that holds its lease, if it reaches the service and its answer the client, is refused with such a code and not unlocked |
| OnlineSurvival.NodeRidesGrace | verifier-sdk/node/src/online.js:28-70 | Node locks at once only on the revocation code, and on the others is unlocked exactly while grace is left |
| OnlineRuns.NodeStillUnlocked | verifier-sdk/node/src/online.js:28-70 | a run from the empty authority in which such a renewal by a Node client is answered and leaves it unlocked |
| OnlineSurvival.UnlockedHasLiveLease | verifier-sdk/python/forge_verifier/online.py:56-72 | every unlocked verdict, forged leases delivered at any time included, rests on a lease minted less than lease plus grace ago, by a call that had been checked when its licence was usable |
| OnlineSurvival.SurvivalIsBounded | verifier-sdk/python/forge_verifier/online.py:95-115 | nothing is unlocked for a licence once lease, grace and the longest delay between check and mint have passed since it ended |
| OnlineSurvival.SurvivalWithoutFlights | verifier-sdk/python/forge_verifier/online.py:95-115 | and without that delay if no call for the licence was between check and mint when it ended |
| OnlineSurvival.EndedWithinFourDays | Project-source/forge-server/app/settings.py:163-164 | with the default settings, not 345600 s and that delay or more after its revocation or its deletion |
| OnlineRuns.DelayIsNeeded | Project-source/forge-server/app/services/edge.py:143-203 | for every delay a run that reaches the bound: a call checked before the revocation and finished after it leaves a Python client unlocked until a nanosecond before, offline or refused for its rate |
| Utf8.RoundTrip | Project-source/forge-server/app/licensing/forge_file.py:34 | decoding inverts encoding for every text |
| FormatRules.OnlyEncodingsDecode | Project-source/forge-server/app/licensing/forge_file.py:50 | only encodings decode: over-long forms, surrogates and stray bytes are refused |
| FormatRules.Utf8Bytes | Project-source/forge-server/app/licensing/forge_file.py:34 | characters of one to four bytes |
| Base64Url.StrippedRoundTrip | Project-source/forge-server/app/licensing/forge_file.py:24-29 | the stripped encoding is in the alphabet, never of length 1 mod 4, `-len % 4` restores exactly the removed padding, and decoding inverts encoding |
| FormatRules.AlphabetExactly | Project-source/forge-server/app/licensing/forge_file.py:24-29 | the alphabet, digit by digit, and what else the decoder reads |
| FormatRules.GroupsExactly | Project-source/forge-server/app/licensing/forge_file.py:24-25 | three bytes are the four digits of their 24 bits |
| FormatRules.ShortGroups | Project-source/forge-server/app/licensing/forge_file.py:24-25 | one and two bytes are the digits they would be with zeros after them, padded |
| Base64Url.LengthOneModFourFails | verifier-sdk/python/forge_verifier/_token.py:15-16 | text in the alphabet of length 1 mod 4 does not decode |
| Base64Url.DecodesExactly | Project-source/forge-server/app/licensing/forge_file.py:28-29 | text in the alphabet decodes to given bytes if and only if it is their encoding up to the unused bits of the last character |
| Base64Url.DecodesSpelled | Project-source/forge-server/app/licensing/forge_file.py:28-29 | any text decodes to given bytes if and only if it is ASCII and what the decoder reads of it is that: other characters skipped, `+` and `/` as `-` and `_`, nothing after complete padding |
| Base64Url.DecodesEncoded | Project-source/forge-server/app/licensing/forge_file.py:28-29 | the same with the padding that decoding a part of a token adds |
| JsonRoundTrip.TextRoundTrip | Project-source/forge-server/app/licensing/forge_file.py:50 | for every value, in any key order, reading its text, with white space around it or not, gives the value |
| JsonRoundTrip.LoadsWellFormed | Project-source/forge-server/app/licensing/forge_file.py:50 | whatever text is read, every dictionary in the result has each key once |
| JsonRoundTrip.LastPairWins | Project-source/forge-server/app/licensing/forge_file.py:50 | a key repeated in the text takes its last value |
| JsonRoundTrip.AsciiEscapeReads | Project-source/forge-server/app/licensing/forge_file.py:50 | every character reads back from its `\u` escape, surrogate pairs included |
| JsonCanonical.DumpsRoundTrip | Project-source/forge-server/app/licensing/forge_file.py:32-34 | reading canonical text gives an equal value, with keys sorted at every depth |
| JsonCanonical.CanonicalText | Project-source/forge-server/app/licensing/forge_file.py:32-34 | two values have the same canonical text if and only if they are equal, whatever the order of their keys |
| FormatRules.ListText | Project-source/forge-server/app/licensing/forge_file.py:32-34 | a list as text |
| FormatRules.ObjectText | Project-source/forge-server/app/licensing/forge_file.py:32-34 | an object as text, its keys in order |
| FormatRules.StringText | Project-source/forge-server/app/licensing/forge_file.py:32-34 | a string as text, with its escapes |
| FormatRules.EscapesExactly | Project-source/forge-server/app/licensing/forge_file.py:32-34 | which characters are escaped, and how |
| FormatRules.HexExactly | Project-source/forge-server/app/licensing/forge_file.py:50 | hexadecimal digits are read in both cases |
| FormatRules.WhiteExactly | Project-source/forge-server/app/licensing/forge_file.py:45 | which characters are stripped from the ends of a token |
| FormatRules.NumberText | Project-source/forge-server/app/licensing/forge_file.py:32-34 | numbers as text |
| FormatRules.RefusedText | Project-source/forge-server/app/licensing/forge_file.py:50 | texts that are no JSON |
| ForgeTokens.FramingRoundTrip | Project-source/forge-server/app/licensing/forge_file.py:45-47 | strip and split recover exactly the two parts, whatever white space surrounds them |
| ForgeTokens.BlobRoundTrip | Project-source/forge-server/app/licensing/forge_file.py:37-52 | parsing a built token yields an equal payload, and true exactly when its signature is the signature of the canonical bytes |
| ForgeTokens.SignedBytesNameOnePayload | Project-source/forge-server/app/licensing/forge_file.py:32-34 | canonical bytes are equal if and only if the payloads are |
| ForgeTokens.SignatureIsForOnePayload | verifier-sdk/python/forge_verifier/_token.py:23-39 | a payload framed with another's signature verifies exactly when the two payloads are equal |
| ForgeTokens.VerifiedPayloadWasIssued | verifier-sdk/python/forge_verifier/_token.py:23-39 | if only issued payloads carry a signature that verifies, every token that verifies yields an issued payload |
| ForgeTokens.VerifiesExactly | Project-source/forge-server/app/licensing/forge_file.py:41-52 | exactly which texts verify and with what payload, both parts and all characters included |
| ForgeTokens.TextsOfPayload | Project-source/forge-server/app/licensing/forge_file.py:41-52 | for an issued payload: exactly the texts whose two parts stand for its canonical bytes and their signature |
| ForgeTokens.SpareTextsVerify | Project-source/forge-server/app/licensing/forge_file.py:10-14 | every setting of the unused bits of both parts' last characters verifies, and any but zero is another text |
| ForgeTokens.SkippedTextVerifies | Project-source/forge-server/app/licensing/forge_file.py:10-14 | a text with characters of no alphabet in front of both parts that verifies |
| RateLimit.RateLimiter.Hit | Project-source/forge-server/app/services/ratelimit.py:17-25 | the counter after a hit, its expiry, and the answer with its retry time |
| RateLimit.RateLimiter.RecordLoginFailure | Project-source/forge-server/app/services/ratelimit.py:27-35 | counter and lock after a failure |
| RateBounds.AdmittedExactly | Project-source/forge-server/app/services/ratelimit.py:17-25 | in every run a call is admitted if and only if fewer than `limit` earlier calls of its key fell in its aligned window |
| RateBounds.RetryExactly | Project-source/forge-server/app/services/ratelimit.py:24-25 | a refusal names the number of seconds until the next window begins |
| RateBounds.WindowBound | Project-source/forge-server/app/services/ratelimit.py:17-25 | an aligned window admits its first `limit` calls and no other |
| RateBounds.IntervalBound | Project-source/forge-server/app/services/ratelimit.py:17-25 | any interval of a window's length admits at most twice the limit |
| RateBounds.NotASlidingWindow | Project-source/forge-server/app/services/ratelimit.py:1 | for every limit and window, twice the limit is admitted within two nanoseconds |
| LoginBounds.FailureBound | Project-source/forge-server/app/services/auth_service.py:39-56 | with no success between, any lock period (end excluded) holds at most 2 · threshold − 2 recorded failures of an account, one for a threshold of 1 |
| LoginBounds.BoundIsReached | Project-source/forge-server/app/services/ratelimit.py:27-35 | for every threshold above one and every lock time of two nanoseconds or more, a run that reaches that number |
| LoginBounds.LockedExactly | Project-source/forge-server/app/services/ratelimit.py:27-42 | after every run of attempts an account is locked exactly while the lock time of its last recorded failure lasts, if that one reached the threshold and no login succeeded since |
| LoginBounds.LockOutlivesCounter | Project-source/forge-server/app/services/ratelimit.py:27-35 | in every run a counter never passes the threshold and is gone before the lock it set |
| Operators.SessionService.Create | Project-source/forge-server/app/services/session_service.py:30-42 | the new session and its index entry |
| Operators.SessionService.Get | Project-source/forge-server/app/services/session_service.py:44-57 | the session answered, its renewal up to the absolute expiry, or its removal |
| Operators.SessionService.Destroy | Project-source/forge-server/app/services/session_service.py:59-65 | session and, if live, index entry are gone |
| Operators.SessionService.DestroyAllForUser | Project-source/forge-server/app/services/session_service.py:67-72 | the loop removes exactly the indexed sessions, in any order, and the index |
| Operators.Database.CountActiveSuperAdmins | Project-source/forge-server/app/api/admin/v1/users.py:33-36 | the number of active undeleted super-admins |
| Operators.AdminApi.Authenticate | Project-source/forge-server/app/services/auth_service.py:39-56 | every answer in its order, and which of them record or clear failures |
| Operators.AdminApi.Login | Project-source/forge-server/app/api/admin/v1/auth.py:30-56 | the address limit, then authentication, then a session |
| Operators.AdminApi.Logout | Project-source/forge-server/app/api/admin/v1/auth.py:59-66 | the session of the request is gone |
| Operators.AdminApi.GetCurrentUser | Project-source/forge-server/app/api/deps.py:23-38 | the session of the request's cookie, if it is live |
| Operators.AdminApi.RequirePerm | Project-source/forge-server/app/permissions/deps.py:12-24 | the operator, or why the request is refused |
| Operators.AdminApi.CreateUser | Project-source/forge-server/app/api/admin/v1/users.py:49-67 | a conflict on any existing address, deleted rows included, or the new row |
| Operators.AdminApi.UpdateUser | Project-source/forge-server/app/api/admin/v1/users.py:70-100 | every refusal in its order, the fields set, and when sessions are destroyed |
| Operators.AdminApi.ResetPassword | Project-source/forge-server/app/api/admin/v1/users.py:103-117 | the new password, by default the address, and the global logout |
| Operators.AdminApi.DeleteUser | Project-source/forge-server/app/api/admin/v1/users.py:120-137 | every refusal in its order, the soft delete, and the global logout |
| Operators.AdminApi.ChangePassword | Project-source/forge-server/app/api/admin/v1/me.py:57-69 | the operator's own password, which needs the current one |
| Operators.AdminApi.ChangeEmail | Project-source/forge-server/app/api/admin/v1/me.py:34-54 | the operator's own address, refused if another account has it |
| OperatorRules.RolesExactly | Project-source/forge-server/app/permissions/roles.py:8-26 | which permissions each role has |
| OperatorRules.OnlySuperAdminsManage | Project-source/forge-server/app/api/admin/v1/users.py:49-140 | in every reachable state only a present, active super-admin gets to write or delete operators |
| OperatorRules.OnlySuperAdminsWrite | Project-source/forge-server/app/api/admin/v1/users.py:49-140 | in every reachable state a request changes the table of users only if a present, active super-admin sends it, or an operator who changes the own row |
| OperatorRules.LoginAnswers | Project-source/forge-server/app/services/auth_service.py:39-56 | every answer of a login in the columns of the account, and what each does to the counters |
| OperatorRules.LoginWrites | Project-source/forge-server/app/api/admin/v1/auth.py:30-56 | a login is counted, refused when its minute is full, and begins one session with the account's present role, and only if authenticated |
| OperatorRules.LookupRenews | Project-source/forge-server/app/services/session_service.py:44-57 | when a session is found, for how long it then lives, and that no other changes |
| OperatorRules.RefusalsExactly | Project-source/forge-server/app/permissions/deps.py:12-24 | which refusal a request gets |
| OperatorRules.LogoutEnds | Project-source/forge-server/app/services/session_service.py:59-65 | a logout ends its session and no other |
| OperatorRules.LogoutEverywhere | Project-source/forge-server/app/services/session_service.py:67-72 | a global logout ends the sessions of the index and no other |
| OperatorRules.CreateWrites | Project-source/forge-server/app/api/admin/v1/users.py:49-67 | the conflict, and every column of the new account |
| OperatorRules.UpdateAnswers | Project-source/forge-server/app/api/admin/v1/users.py:70-100 | every refusal by the rows and the request (nobody weakens itself, nor the last active super-admin), every column after it, and whether the sessions go |
| OperatorRules.ResetWrites | Project-source/forge-server/app/api/admin/v1/users.py:103-117 | the password set, the sessions ended, and nothing else |
| OperatorRules.DeleteAnswers | Project-source/forge-server/app/api/admin/v1/users.py:120-137 | every refusal, and the one column set |
| OperatorRules.OwnAccountWrites | Project-source/forge-server/app/api/admin/v1/me.py:34-69 | an operator's own password and address: refusals, and the one column set |
| OperatorRules.ShippedLogin | Project-source/forge-server/app/settings.py:139-148 | with the shipped settings: ten logins a minute, twelve idle hours, seven days |
| OperatorRules.ShippedFailures | Project-source/forge-server/app/settings.py:149-150 | with the shipped settings: eight wrong passwords in 900 seconds at most |
| OperatorRules.ShippedLock | Project-source/forge-server/app/settings.py:149-150 | with the shipped settings: the fifth of a count locks for 900 seconds |
| OperatorLedger.SessionsRun | Project-source/forge-server/app/api/admin/v1/users.py:79-99 | in every run each stored session is in its user's index, and its user is active, undeleted and of the session's role |
| OperatorLedger.AcceptedIffRoleGrants | Project-source/forge-server/app/permissions/deps.py:12-24 | in every reachable state a request is accepted if and only if its session is live before its absolute expiry and the role its user holds now grants the permission |
| OperatorLedger.ExpirySetAtLogin | Project-source/forge-server/app/services/session_service.py:44-57 | over every run renewal never moves an absolute expiry: it is the one the session's login gave |
| OperatorLedger.IdleSessionsEnd | Project-source/forge-server/app/services/session_service.py:44-57 | a session no request has carried for the idle time is refused, whatever other requests do meanwhile |
| OperatorLedger.LoggedOutAtOnce | Project-source/forge-server/app/api/admin/v1/users.py:97-99 | a demoted, disabled, deleted or reset operator has no session left when the request is done |
| OperatorLedger.OwnPasswordKeepsSessions | Project-source/forge-server/app/api/admin/v1/me.py:57-69 | after an operator's own change of password every request accepted before is still accepted |
| OperatorLedger.AlwaysAnAdministrator | Project-source/forge-server/app/api/admin/v1/users.py:79-132 | from any state with an active super-admin, every run by any operators keeps one |
| OperatorLedger.LoginAdmitsExactly | Project-source/forge-server/app/services/auth_service.py:39-56 | a login succeeds for an account if and only if the address is not locked and the account is present, active and matches address, password and, if enrolled, code |
| OperatorLedger.NewUserLogsIn | Project-source/forge-server/app/api/admin/v1/users.py:49-67 | a created account can log in at once, with its address as password if none was given |
| OperatorLedger.RemovedUserStaysOut | Project-source/forge-server/app/api/admin/v1/users.py:70-137 | a deleted or disabled account cannot log in, whatever is presented |
| OperatorLedger.EmailsRun | Project-source/forge-server/app/repositories/user.py:14-18 | addresses stay unique over every run, so the lookup by address finds at most one row |

## Left out

- Ed25519, AES-GCM, argon2, SHA-256 and TOTP: function parameters and inputs that accept exactly what was produced.
- HTTP, request schemas, SQLAlchemy, Redis clients and Celery: only their effects on rows and keys. A task or request
  that dies between two effects is modelled for activations only (`SeatRace`).
- Heartbeat liveness: a renewal's heartbeat is not committed, so nothing is claimed about a client that keeps renewing.
- Interleaved versions of seat conservation (`SeatCounter` has those of the counter), of distinct identities, of list stamps
  (a revocation committed while a list is being generated may be stamped with a version that does not list it), of
  session consistency and of the last administrator: those theorems are about runs of whole calls.
- Columns no rule reads: audit rows, cluster ids, features, quotas, reasons, customers and products beyond "exists" and
  "active", `last_seen_at`, the state file's list date.
- The end of a licence (`compute_active_until`): taken as given.
- Hardware fingerprint collection and install-id files: inputs.
- State-file and cache writes are taken to succeed; a corrupt state file is not part of this model.
- Soft deletion of bindings and deletion of list bundles: nothing in the source does either.
- JSON floats, lone surrogates, byte order marks, UTF-16 and UTF-32 detection, and Python's limits on nesting and on
  the length of integers. A payload with a float is refused by the parser here.
- The rate limits of the public routes themselves (20, 10 and 60 calls a minute): a renewal they refuse is neither locked
  nor renewed, and `OnlineSurvival.LaterRenewalsLock` says nothing about it.
- Differences between the SDKs in decoding a token: the comparisons of `SdkAgreement` start from one parsed payload.
- Malformed dates in tokens and leases, and the exceptions Python's online client raises on them.
- Go's overflow of a skew or an age beyond 292 years; `CrossSdkAgreement` compares calls within that range.
- Case folding of addresses: they are given in lower case.
- Two-factor enrolment and the unused password-reset tokens: whether an account has a second factor is a column that
  the modelled requests do not change.
- Provider adapters, migrations other than the unique indexes, charts, the console.
- `_permissions_for` as a sorted list: permissions are a set.
