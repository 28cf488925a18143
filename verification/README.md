# Handshake protocol crates: a Dafny model

The Handshake crates hold the parts of the protocol that must not be reimplemented by every client: header
difficulty, authenticated name data, and the HNSR state machines that find, store and relay routes to a named
service. This project models the parts where a mistake would be silent, and proves what they are for.

Six components are modelled.

* **Difficulty** (`U256`, `Difficulty`, `Retarget`). 256-bit numbers are 32-byte arrays worked on by loops. Every
  loop is proved against the number its bytes denote, up to the exact quotient of the 257-step long division; work
  and target are adjoint; compact encoding is a monotone, idempotent truncation; a retarget gives exactly the target
  of the work per block at the pace of the elapsed time, so on schedule difficulty stays put.
* **Name data** (`Encoding`, `NameStates`, `DnsNames`, `Resources`, `ResourceWriters`). The wire reader and writer, the name-tree value
  with its ten optional fields, and the DNS records of a resource with compressed names (section 4.1.4 of RFC 1035).
* **Requester replay state** (`Replay`, `Requester`, `RequesterSelection`, `RequesterSystem`, `RequesterObjects`).
  A requester remembers, per scope, the greatest endpoint-delegation and route sequences it has accepted, in one
  aggregate behind a compare-and-swap register. The theorem is downgrade safety over whole runs with crashes,
  restarts from any old snapshot, writes that land late, twice or after their context is gone, acknowledgements that
  are late or lost, and several contexts that must reconfirm.
* **Route store** (`ReplayLedger`, `RouteStores`, `RouteStoreInvariants`, `RouteStoreRuns`, `RouteLives`,
  `RouteStoreObjects`, `LedgerSnapshots`, `RateLimiters`). A volatile cache of live routes beside an independent replay
  ledger. The two never disagree, so the program's own consistency errors are unreachable; the ledger's entry is a
  summary of what was seen, whatever the order; a verified route lives exactly as long as authority last said; a
  restart loses nothing the ledger knew, and its image survives the codec.
* **Persistence boundary** (`PersistentRoutes`, `PersistentAnswers`, `LeasedServices`, `PersistentObjects`). At every
  emission, a response or a protocol error alike, storage holds exactly the ledger the answer rests on, and the answer
  is the best of what was live.
* **Circuits** (`CircuitRelays`, `CircuitRelayInvariants`, `CircuitRelayRuns`, `CircuitBudgets`, `CircuitRequesters`,
  `CircuitRequesterRuns`, `CircuitRequesterBudgets`, `CircuitMeanings`, `CircuitSystem`, `CircuitObjects`). A requester
  and an opaque relay joined by channels that lose and reorder. Credit is conserved, so neither side refuses the
  other's data for want of it; the relay's queue counts are exact; no run carries more bytes on a reservation or a
  circuit than its ticket allows; every open a relay admits is pending, active or revoked; so is every open a requester admits,
  restarts included, but for those a close or cancel with too long a detail has lost.

Three small modules are shared: `CasRegisters` (a fenced compare-and-swap register whose writes may be ambiguous),
`Tallies` (sums over maps, and counters kept beside them) and `Paths` (invariants and relations along a run).

Where the program updates fields in place the model has a class, and each method's contract says that the new state
is the specification function of the old one; the theorems are about those functions. The circuit machines, the
requester's state and the leased service also require and keep the invariant of those theorems, and say what it means
for a caller. Where the program computes a value the model has a function.

## Assumptions

* Signature, ticket, authority and public-key checks are parameters: a boolean, or the bound they return.
* A canonical-record hash and a snapshot fingerprint identify what they were computed from. A record and its hash
  are one number; a snapshot's fingerprint is the snapshot. Identifiers are ordered numbers.
* The expiry signed into a record is a function of its bytes (`expiryOf`, universally quantified). A verified
  version-3 record has an expiry later than now, a cache bound no later than that expiry, and nonzero sequences.
* Clocks, random identifiers, the order of a hash-map walk, the answers of lease checks and of the rate limiter (whose
  own behaviour is modelled apart) and the fate of every write are parameters, so the theorems hold for all of them.
  The one lease check that must tell the truth is the one just before a release or an emission. A circuit identifier
  drawn at random is not in use; in the joint runs of requester and relay it has not been drawn before either. A
  confirmed reservation's ticket is still running when it admits an open.
* Chain work is a number below 2^256. A reservation ID stands for one fixed ticket.
* Integers are unbounded except where a width decides something: 64-bit saturation, the reserved top revision, the
  last action sequence, 32-bit windows, and field widths in the codecs are written out.

Four properties turn out not to hold everywhere, and are proved exactly. A relay that rejects a DATA, WINDOW or ACCEPT
changes nothing beyond its clock, except when the generation has no sequence number left and the packet would be
accepted if it had one: sequence numbers are checked after the bookkeeping (`RejectionChangesNothing`;
`ExhaustedDataSpendsCredit` names a sound relay where a refused DATA spends credit and counts bytes no action carries).
A relay's admitted opens stay accounted for across a restart only if no action was in flight, because restoring counts
actions as revoked work too (`RestartConservesIff`; one open on a fresh relay is enough, by `RestartAfterOneOpen`).
A requester that closes a circuit or cancels an open takes it out before it encodes the CLOSE and counts it only
afterwards, so a detail of more than 128 bytes loses the open from the account for good (`CloseConservesIff`,
`CancelConservesIff`; `AnOpenIsLost` is such a run, and `BalancedIff` says the account balances exactly without one).
The durable and the stateless selector check the key and the batch size in opposite orders, so they agree exactly when
the key is valid or the batch is small enough (`DurableMatchesStateless`).

## Model

| member | source | states |
|---|---|---|
| `U256.CheckedAdd` | crates/hns-header-consensus/src/lib.rs:585-594 | the byte loop adds exactly, and fails exactly when the sum reaches 2^256 |
| `U256.WrappingSub` | crates/hns-header-consensus/src/lib.rs:631-645 | subtraction modulo 2^256 |
| `U256.CheckedSub` | crates/hns-header-consensus/src/lib.rs:616-618 | exact difference, present exactly when it is not negative |
| `U256.ShiftLeftOne` | crates/hns-header-consensus/src/lib.rs:620-629 | doubles the number in place and returns the bit shifted out |
| `U256.SetBit` | crates/hns-header-consensus/src/lib.rs:647-649 | setting a clear bit adds exactly its weight |
| `U256.DivideBit` | crates/hns-header-consensus/src/lib.rs:656-669 | one step of the long division keeps quotient and remainder of the bits consumed |
| `U256.DivideTwoTo256` | crates/hns-header-consensus/src/lib.rs:651-670 | exactly floor(2^256 / d) for every d of at least 2, nothing below |
| `U256.BelowIsLess` | crates/hns-header-consensus/src/lib.rs:559-560 | lexicographic order of the bytes is the order of the numbers |
| `Difficulty.WorkForTarget` | crates/hns-header-consensus/src/lib.rs:596-604 | floor(2^256 / (target + 1)), also at the greatest target, nothing for zero |
| `Difficulty.TargetForWork` | crates/hns-header-consensus/src/lib.rs:606-614 | floor(2^256 / work) - 1, nothing for zero |
| `Difficulty.WorkTargetGalois` | crates/hns-header-consensus/src/lib.rs:596-614 | work(t) is at least w exactly when t is at most target(w) |
| `Difficulty.FromCompact` | crates/hns-header-consensus/src/lib.rs:176-213 | the three loops write the magnitude the bits denote; overflow exactly when it needs more than 256 bits |
| `Difficulty.ToCompact` | crates/hns-header-consensus/src/lib.rs:236-257 | the leading-byte scan gives the compact code of the number |
| `Difficulty.CompactDecodes` | crates/hns-header-consensus/src/lib.rs:176-257 | a code is never negative and decodes to the truncated number |
| `Difficulty.TruncationLoss` | crates/hns-header-consensus/src/lib.rs:236-257 | truncation never raises a number and loses less than one part in 2^15 |
| `Difficulty.TruncationMonotone` | crates/hns-header-consensus/src/lib.rs:236-257 | truncation keeps order |
| `Difficulty.TruncationIdempotent` | crates/hns-header-consensus/src/lib.rs:236-257 | a truncated number has the code it came from |
| `Retarget.RetargetBits` | crates/hns-header-consensus/src/lib.rs:462-499 | the byte-level rule computes the rule on numbers, error for error, and so obeys the laws below |
| `Retarget.NetworksConsistent` | crates/hns-header-consensus/src/lib.rs:278-400 | in all four networks the compact limit decodes to the limit |
| `Retarget.RetargetSound` | crates/hns-header-consensus/src/lib.rs:462-499 | every successful retarget decodes to a nonzero, non-negative target no greater than the limit |
| `Retarget.ExpectedNextBitsSound` | crates/hns-header-consensus/src/lib.rs:430-460 | the same for the rule that decides whether to retarget |
| `Retarget.RetargetMonotone` | crates/hns-header-consensus/src/lib.rs:462-499 | the decoded target does not fall with elapsed time nor rise with work |
| `Retarget.RetargetExact` | crates/hns-header-consensus/src/lib.rs:462-499 | if blocks of work w each, one per target spacing, fill the elapsed time counted between its bounds, the next target is the truncated target of w, or the limit if that is greater |
| `Retarget.OnScheduleStaysPut` | crates/hns-header-consensus/src/lib.rs:462-499 | n blocks of work w on schedule call for the target of w; in k times the time, for the target of floor(w / k) |
| `Retarget.RetargetFailsIff` | crates/hns-header-consensus/src/lib.rs:462-477 | a retarget fails exactly for heights or work out of order, or scaled work past 256 bits |
| `Retarget.NetworkRules` | crates/hns-header-consensus/src/lib.rs:430-460 | mainnet and simnet retarget from height 146 on and hold the limit before; testnet also resets when a block is more than 20 minutes late; regtest never moves |
| `Encoding.ReadPutCompact` | crates/hns-encoding/src/lib.rs:202-218 | reading a written compact size returns it and leaves what followed |
| `Encoding.PutReadCompact` | crates/hns-encoding/src/lib.rs:55-89 | whatever the reader accepts is the canonical form of its value |
| `Encoding.Decoder.ReadSlice` | crates/hns-encoding/src/lib.rs:126-143 | consumes exactly the bytes it returns, or nothing |
| `Encoding.Decoder.ReadCompactSize` | crates/hns-encoding/src/lib.rs:55-89 | accepts exactly canonical forms and advances past them |
| `Encoding.Decoder.Finish` | crates/hns-encoding/src/lib.rs:159-170 | succeeds exactly when nothing is left |
| `Encoding.Encoder.PutCompactSize` | crates/hns-encoding/src/lib.rs:202-218 | appends the canonical form |
| `NameStates.NameStateRoundTrip` | crates/hns-covenants/src/name_state.rs:125-290 | every encodable state, over all its optional fields, takes at most 660 bytes and decodes under its key to itself |
| `NameStates.NameStateCanonical` | crates/hns-covenants/src/name_state.rs:197-290 | whatever decodes is the encoding of the state returned, and unless every field is null the key is the hash of its name |
| `NameStates.KnownState` | crates/hns-covenants/fixtures/hsd/name-state-resource-v1.txt:12 | HSD's fully populated state is written to exactly its bytes, which fixes the order, width and bit of every field |
| `NameStates.UnpackPack` | crates/hns-covenants/src/name_state.rs:128-162 | the field bitmap gives back the flags it was built from |
| `NameStates.Encode` | crates/hns-covenants/src/name_state.rs:125-195 | succeeds exactly on encodable states, with the bytes of the specification |
| `NameStates.Decode` | crates/hns-covenants/src/name_state.rs:197-290 | the field-by-field decoder, re-encoding check included, is the specification |
| `DnsNames.Expand` | crates/hns-covenants/src/resource.rs:211-304 | terminates; accepts exactly names whose every pointer leads to a known label of an earlier name within the limits, so the repeated-target guard never fires; returns the labels the table gives |
| `DnsNames.DecodeName` | crates/hns-covenants/src/resource.rs:211-304 | leaves the decoder after the name's own bytes and records its literal label offsets |
| `DnsNames.WalkSplits` | crates/hns-covenants/src/resource.rs:211-304 | a name is its literal labels followed by the suffix decoded at the pointed-to offset |
| `DnsNames.ExtendSound` | crates/hns-covenants/src/resource.rs:211-304 | after each name every recorded offset is a label whose pointer leads strictly before its own name |
| `Resources.DecodeRecords` | crates/hns-covenants/src/resource.rs:146-209 | the record loop over one shared offset table is the recursive grammar of records |
| `Resources.DecodeResource` | crates/hns-covenants/src/resource.rs:109-124 | size, version and record errors, and otherwise the records of the grammar with every byte used |
| `ResourceWriters.BodyRead` | crates/hns-covenants/src/resource.rs:82-95 | each kind of record, written under its tag with literal names, parses to itself wherever it stands and whatever follows |
| `ResourceWriters.ResourceRoundTrip` | crates/hns-covenants/src/resource.rs:146-209 | a resource of any writable records that fits parses to exactly those records |
| `Replay.ObserveIsJoin` | crates/hns-hnsr-protocol/src/requester_hrm.rs:1843-1907 | classifying a claim and mutating the counter is the join with it |
| `Replay.JoinIsLub` | crates/hns-hnsr-protocol/src/requester_hrm.rs:2471-2553 | that join is a least upper bound in the order of advancing sequences and tombstones |
| `Replay.JoinLaws` | crates/hns-hnsr-protocol/src/requester_hrm.rs:2471-2553 | commutative, associative, idempotent |
| `Replay.ObserveChanges` | crates/hns-hnsr-protocol/src/requester_hrm.rs:2482-2497 | a disposition says it changes exactly when it does, and a second look changes nothing |
| `Replay.ReduceIsSummary` | crates/hns-hnsr-protocol/src/requester_hrm.rs:1407-1440 | the reduced claim is the maximum, its one identity, or a conflict exactly if two differ there |
| `Replay.BatchEqualsOneByOne` | crates/hns-hnsr-protocol/src/requester_hrm.rs:1387-1461 | reducing a batch and observing once equals observing its records one at a time, in any order |
| `Requester.NextEntryIsObserve` | crates/hns-hnsr-protocol/src/requester_hrm.rs:1776-1812 | the entry written is the observation of both claims, never lower than before, changed exactly when the dispositions say so |
| `Requester.ReconcileIff` | crates/hns-hnsr-protocol/src/requester_hrm.rs:1057-1110 | succeeds exactly on storage that is absent as expected, or holds, at or above the revision floor and for the same network and capacity, the image or the one the pending write expects |
| `Requester.RestoreIff` | crates/hns-hnsr-protocol/src/requester_hrm.rs:918-966 | a snapshot is restored exactly at or above the floor, for the same network and capacity, not into the past, with a revision to spare if time moves |
| `Requester.FlushIff` | crates/hns-hnsr-protocol/src/requester_hrm.rs:2015-2035 | succeeds exactly when the lease holds before and after and the write lands and says so; only then is the transition settled |
| `Requester.BindIff` | crates/hns-hnsr-protocol/src/requester_hrm.rs:1909-1966 | a route is handed out exactly while the lease holds, nothing is pending, and the entry is exactly that record |
| `Requester.PrepareTimeFollows` | crates/hns-hnsr-protocol/src/requester_hrm.rs:1174-1179 | a prepared time transition has its prior image as expectation and dominates it |
| `Requester.PrepareObservationFollows` | crates/hns-hnsr-protocol/src/requester_hrm.rs:1773-1818 | the same for a prepared observation |
| `Requester.CapacityKept` | crates/hns-hnsr-protocol/src/requester_hrm.rs:1983-1998 | a new observation keeps entries within the capacity and sixteen per route key |
| `RequesterSelection.SelectedIsGreatest` | crates/hns-hnsr-protocol/src/requester_hrm.rs:1407-1442 | the selected record is at least as recent as every usable one in both dimensions; none is selected only when no record is |
| `RequesterSelection.SelectionIsCurrent` | crates/hns-hnsr-protocol/src/requester_hrm.rs:1348-1461 | under any environment a success returns such a record, with nothing pending, time exactly now, and the final gate passed |
| `RequesterSelection.SelectionNeedsLease` | crates/hns-hnsr-protocol/src/requester_hrm.rs:1348-1461 | a selection succeeds only if every lease check on the way says yes and every write it needs lands and is acknowledged |
| `RequesterSelection.RefusedSelectionIsFull` | crates/hns-hnsr-protocol/src/requester_hrm.rs:1983-1998 | a selection is refused for capacity only in an unseen scope with the aggregate or its route key full |
| `Requester.SelectionAdvances` | crates/hns-hnsr-protocol/src/requester_hrm.rs:1348-1461 | whatever its outcome, a selection leaves a well-formed memory in which nothing recorded has gone back |
| `RequesterSelection.SelectionObservesEveryRecord` | crates/hns-hnsr-protocol/src/requester_hrm.rs:1387-1461 | a selection leaves in memory and storage what its usable records would leave one by one, and touches no other scope |
| `RequesterSelection.BatchObservesLikeRecords` | crates/hns-hnsr-protocol/src/requester_hrm.rs:1741-1907 | the same for the entry alone, from any earlier observation |
| `RequesterSelection.DurableMatchesStateless` | crates/hns-hnsr-protocol/src/named_hrm.rs:142-226 | on an unseen scope both selectors give the same record or verdict, exactly unless the key is invalid and the batch too large |
| `RequesterSelection.AdvanceTimeAsyncMatches` | crates/hns-hnsr-protocol/src/requester_hrm.rs:1185-1219 | the awaited time advance is the synchronous one |
| `RequesterSelection.RoundAfterHandOff` | crates/hns-hnsr-protocol/src/requester_hrm.rs:1592-1626 | after one acknowledged hand-off the next round hands nothing over and returns the synchronous result |
| `RequesterSelection.ObserveRecordIsSelection` | crates/hns-hnsr-protocol/src/requester_hrm.rs:1230-1278 | observing one record is selecting from a batch of one, under any environment, except for the name of one error |
| `RequesterSystem.LandKeeps` | crates/hns-hnsr-protocol/src/requester_hrm.rs:2015-2035 | a write, however late or often it lands and whatever became of its context, moves storage only from its prior to its proposed image |
| `RequesterSystem.AcknowledgeKeeps` | crates/hns-hnsr-protocol/src/requester_hrm.rs:2057-2077 | an acknowledgement, however late, is believed only of a write that landed, and under the current lease nothing has followed it |
| `RequesterSystem.FlushArrives` | crates/hns-hnsr-protocol/src/requester_hrm.rs:2015-2035 | a flush, whatever becomes of it, is a write that is sent, lands and is acknowledged, or stops on the way |
| `RequesterSystem.ReconfirmKeeps` | crates/hns-hnsr-protocol/src/requester_hrm.rs:1057-1110 | reconciliation under the current lease admits only a memory that storage agrees with; under a stale one, whatever was loaded, it gains nothing |
| `RequesterSystem.FloorHolds` | crates/hns-hnsr-protocol/src/requester_hrm.rs:1057-1110 | in every run a context that reconfirmed under a floor neither holds nor waits on anything below it, for as long as it lives |
| `RequesterSystem.ReleasesAboveFloor` | crates/hns-hnsr-protocol/src/requester_hrm.rs:1909-1966 | and whatever it releases comes from a commit at or above the floor |
| `RequesterSystem.NextKeeps` | crates/hns-hnsr-protocol/src/requester_hrm.rs:889-966 | creation, restore from any snapshot, crash, lease, reconfirm, sending, landing, acknowledgement, preparation and release all keep the invariant |
| `RequesterSystem.ReleasesNeverGoBack` | crates/hns-hnsr-protocol/src/requester_hrm.rs:1741-1841 | over every run released routes never go back in time, endpoint sequence or route sequence, nor change identity at an equal one |
| `RequesterSystem.ConflictsStayBuried` | crates/hns-hnsr-protocol/src/requester_hrm.rs:1822-1839 | a sequence that storage ever marked conflicted is never released afterwards |
| `RequesterSystem.StorageCoversReleases` | crates/hns-hnsr-protocol/src/requester_hrm.rs:1909-1966 | storage records every release, or something beyond it |
| `RequesterSystem.RevisionsIdentifyCommits` | crates/hns-hnsr-protocol/src/requester_hrm.rs:2079-2085 | no two commits of a run share a revision |
| `RequesterSystem.EveryImageLoads` | crates/hns-hnsr-protocol/src/requester_hrm.rs:481-640 | in every run what any context holds and what storage holds is within both capacities and meets the decoder's rules on counts, revision and tombstones |
| `RequesterSystem.SelectionArrives` | crates/hns-hnsr-protocol/src/requester_hrm.rs:1508-1570 | a whole selection, under any environment, is a run of the system's steps, and its release is a step |
| `RequesterSystem.ReachesExtends` | crates/hns-hnsr-protocol/src/requester_hrm.rs:1508-1570 | so the theorems speak about every state an operation reaches |
| `RequesterSystem.AReleaseHappens` | crates/hns-hnsr-protocol/src/requester_hrm.rs:889-966 | a run that releases a route exists: create, reconfirm, write, observe, write, release |
| `RequesterObjects.RequesterState.Reconcile` | crates/hns-hnsr-protocol/src/requester_hrm.rs:1057-1110 | succeeds exactly as `ReconcileIff` says and with the lease held, floor included; the image itself never changes |
| `RequesterObjects.RequesterState.FlushPending` | crates/hns-hnsr-protocol/src/requester_hrm.rs:2015-2035 | success means the lease held throughout, nothing is pending and storage holds the image; anything else leaves the transition pending and the image untouched |
| `RequesterObjects.RequesterState.AdvanceTrustedTime` | crates/hns-hnsr-protocol/src/requester_hrm.rs:1157-1181 | earlier transitions are settled before time moves; success means nothing pending and time exactly now, and on every path nothing recorded goes back |
| `RequesterObjects.RequesterState.Observe` | crates/hns-hnsr-protocol/src/requester_hrm.rs:1741-1841 | the in-place update of both counters is the specified transition; on every path the memory stays well-formed and nothing recorded goes back |
| `RequesterObjects.RequesterState.Select` | crates/hns-hnsr-protocol/src/requester_hrm.rs:1348-1461 | success returns a usable record of the batch at least as recent as every usable one, with nothing pending, time exactly now, and the entry exactly that record; on every path nothing goes back |
| `RequesterObjects.RequesterState.SelectAsync` | crates/hns-hnsr-protocol/src/requester_hrm.rs:1577-1627 | the loop ends with at most one hand-off and, the lease held, does exactly what the synchronous selection does, with the same guarantees |
| `RequesterObjects.RequesterState.ObserveCurrent` | crates/hns-hnsr-protocol/src/requester_hrm.rs:1230-1278 | success means the record is the current entry of its scope, with nothing pending and time exactly now; on every path nothing goes back |
| `RequesterObjects.RequesterState.ObserveCurrentAsync` | crates/hns-hnsr-protocol/src/requester_hrm.rs:1288-1328 | the awaited single observation hands over at most once and ends as the synchronous one |
| `RequesterObjects.CollectUsable` | crates/hns-hnsr-protocol/src/requester_hrm.rs:1387-1402 | the loop collects the batch's records of the scope that verify, in order |
| `RequesterObjects.SelectUncommitted` | crates/hns-hnsr-protocol/src/named_hrm.rs:142-226 | the stateless selector returns a usable record at least as recent as every usable one |
| `CasRegisters.Storage.Persist` | crates/hns-hnsr-protocol/src/requester_hrm.rs:706-722 | a write lands only under the current token on the expected or already proposed image |
| `ReplayLedger.NextEntryNeverErrs` | crates/hns-hnsr-protocol/src/routing.rs:576-662 | a disposition computed from the same entry is never refused, and its rejection is never incomplete |
| `ReplayLedger.AcceptedIff` | crates/hns-hnsr-protocol/src/routing.rs:529-565 | a candidate is accepted exactly when the entry it leaves is unconflicted and equal to it in both dimensions |
| `ReplayLedger.ChangesIff` | crates/hns-hnsr-protocol/src/routing.rs:1663-1667 | the entry changes exactly when a counter does or the horizon moves |
| `ReplayLedger.CountersGrow` | crates/hns-hnsr-protocol/src/routing.rs:600-658 | counters never go back, conflicts at a level are never forgotten |
| `ReplayLedger.FoldIsSummary` | crates/hns-hnsr-protocol/src/routing.rs:1406-1465 | folding any sightings gives the greatest sequence, the least identity at it, conflicted exactly if two differ, and the latest horizon |
| `ReplayLedger.OrderIndependent` | crates/hns-hnsr-protocol/src/routing.rs:576-662 | so arrival order and repetition do not matter |
| `ReplayLedger.AcceptedIffGreatest` | crates/hns-hnsr-protocol/src/routing.rs:552-565 | the latest sighting is accepted exactly when it is the unequivocal maximum of all so far |
| `RouteStores.LiveMatch` | crates/hns-hnsr-protocol/src/routing.rs:1478-1541 | the action names the endpoint's own live route, or says there is none |
| `RouteStores.Ranked` | crates/hns-hnsr-protocol/src/routing.rs:1807-1808 | a permutation in order of falling sequence |
| `RouteStoreInvariants.PruneKeyKeeps` | crates/hns-hnsr-protocol/src/routing.rs:1945-1961 | dropping expired routes keeps the invariant and leaves only live ones |
| `RouteStoreInvariants.PruneLedgerKeeps` | crates/hns-hnsr-protocol/src/routing.rs:1903-1922 | pruning the ledger keeps cache and ledger in agreement |
| `RouteStoreInvariants.LiveMatchAgrees` | crates/hns-hnsr-protocol/src/routing.rs:1467-1560 | once pruned, the live side never disagrees with the ledger's verdict |
| `RouteStoreInvariants.InsertKeeps` | crates/hns-hnsr-protocol/src/routing.rs:1621-1777 | insertion keeps lists, agreement, quotas and ledger bounds, and raises no consistency error |
| `RouteStoreInvariants.PreflightOnlyPrunes` | crates/hns-hnsr-protocol/src/routing.rs:1567-1615 | the checks on unverified input prune and mutate nothing else |
| `RouteStoreInvariants.PutV3Keeps` | crates/hns-hnsr-protocol/src/routing.rs:1013-1095 | the same for a whole version-3 admission, verified or not |
| `RouteStoreInvariants.PutPlainKeeps` | crates/hns-hnsr-protocol/src/routing.rs:1320-1404 | version-1 and version-2 admission keeps the invariant |
| `RouteStoreInvariants.RevalidateKeeps` | crates/hns-hnsr-protocol/src/routing.rs:1142-1186 | revalidation keeps the invariant, renewing no route beyond its signed expiry |
| `RouteStoreInvariants.WithdrawKeeps` | crates/hns-hnsr-protocol/src/routing.rs:1225-1278 | withdrawal removes the live routes of a namespace and leaves the ledger |
| `RouteStoreInvariants.RestartRefines` | crates/hns-hnsr-protocol/src/routing.rs:801-845 | restoring a captured ledger at `now` gives the ledger, revision, prune floor and error of pruning the original at `now` |
| `RouteStoreRuns.RunKeeps` | crates/hns-hnsr-protocol/src/routing.rs:704-738 | every store reachable through any operations and restarts satisfies the invariant |
| `RouteStoreRuns.NeverInconsistent` | crates/hns-hnsr-protocol/src/routing.rs:1499-1541 | in no run does a version-3 admission report that live state and ledger disagree |
| `RouteStoreRuns.LookupServesLedger` | crates/hns-hnsr-protocol/src/routing.rs:1789-1826 | a version-3 lookup serves only unexpired routes that realise both unconflicted high-waters; the conflict filter hides nothing |
| `RouteStoreRuns.ServedNeverGoesBack` | crates/hns-hnsr-protocol/src/routing.rs:1789-1826 | a route served later is never behind one served earlier in its scope, unless the earlier one's signed life was pruned away |
| `RouteStoreRuns.RevisionsIdentifyLedgers` | crates/hns-hnsr-protocol/src/routing.rs:1972-1981 | two ledger states of one lineage with equal revision are equal, across restarts |
| `RouteStoreRuns.RunEvolves` | crates/hns-hnsr-protocol/src/routing.rs:1903-1922 | along a run entries only grow and are forgotten only after their retention horizon |
| `RouteStoreRuns.RestartAdmitsAlike` | crates/hns-hnsr-protocol/src/routing.rs:801-845 | a restarted store admits and rejects as the running one would, short of live capacity |
| `RouteLives.LookupShows` | crates/hns-hnsr-protocol/src/routing.rs:1789-1826 | every lookup returns only showable routes in falling sequence within the limit, and an omitted one never outranks a returned one |
| `RouteLives.PublicationLives` | crates/hns-hnsr-protocol/src/routing.rs:1621-1777 | publishing changes no route but the record itself: current authority gives it exactly its bound, plain admission never extends, verifies or touches a verified one; no other endpoint's live route is lost; the answer is the life of the route now there |
| `RouteLives.RepublicationNeverExtends` | crates/hns-hnsr-protocol/src/routing.rs:1726-1732 | re-publishing without authority never lengthens a live route's life nor changes whether it is verified |
| `RouteLives.VerifiedWithinBound` | crates/hns-hnsr-protocol/src/routing.rs:1142-1186 | in every run, restarts included, a verified route lives exactly as long as current authority last said of it |
| `RouteLives.RevalidationLives` | crates/hns-hnsr-protocol/src/routing.rs:1142-1186 | a revalidation keeps exactly the supported routes of its namespace, each with its bound, and touches no other list |
| `RouteLives.PlainLives` | crates/hns-hnsr-protocol/src/routing.rs:1320-1404 | in the older models a live route gives way only to a greater sequence of its endpoint, and the answer is the life of the route now there |
| `RouteLives.PlainNeverGoesBack` | crates/hns-hnsr-protocol/src/routing.rs:1320-1404 | over a run, as long as the endpoint's route never lapses, its sequence does not fall |
| `RouteLives.PublicationRemembers` | crates/hns-hnsr-protocol/src/routing.rs:477-479 | an accepted or rejected verified record is remembered to the end of its signed life and for two hours after the sighting |
| `RouteLives.InsertFull` | crates/hns-hnsr-protocol/src/routing.rs:1406-1619 | a record is refused for capacity only if, once pruned, the ledger or the live cache is full for it |
| `RouteLives.PruningMeans` | crates/hns-hnsr-protocol/src/routing.rs:1903-1922 | pruning forgets exactly the scopes past their horizon, under one new revision, and fails exactly for a past clock or spent revisions |
| `RouteLives.RestoreIff` | crates/hns-hnsr-protocol/src/routing.rs:801-845 | a ledger is restored exactly into a fresh store of the same shape, at or above the revision floor, not into the past, and keeps exactly what is still to be remembered |
| `RouteLives.WithdrawalMeans` | crates/hns-hnsr-protocol/src/routing.rs:1268-1278 | a withdrawal drops one namespace's live routes and nothing else |
| `RouteLives.LostLeaseWithdraws` | crates/hns-hnsr-protocol/src/routing.rs:977-1003 | an operation that lost its lease leaves no live route of its namespace, and the ledger as it was |
| `RouteStoreObjects.Sift` | crates/hns-hnsr-protocol/src/routing.rs:1945-1971 | the pruning loop keeps every source count exact; no decrement underflows |
| `RouteStoreObjects.Recheck` | crates/hns-hnsr-protocol/src/routing.rs:1164-1181 | the revalidation loop keeps the counts exact and renews the supported routes |
| `RouteStoreObjects.CountRoutes` | crates/hns-hnsr-protocol/src/routing.rs:1932-1943 | the rebuilt per-route counts are the true ones, with no zero entries |
| `RouteStoreObjects.RouteStore.PruneStoreKey` | crates/hns-hnsr-protocol/src/routing.rs:1945-1961 | drops exactly the expired routes of one list, keeping size and source counts exact |
| `RouteStoreObjects.RouteStore.PruneLedger` | crates/hns-hnsr-protocol/src/routing.rs:1903-1922 | removes exactly the lapsed scopes under one new revision, with the per-route counts rebuilt exactly |
| `RouteStoreObjects.RouteStore.RemoveLive` | crates/hns-hnsr-protocol/src/routing.rs:1268-1278 | removes one namespace's live routes and nothing else, and counts them |
| `RouteStoreObjects.RouteStore.Revalidate` | crates/hns-hnsr-protocol/src/routing.rs:1142-1186 | prunes, then keeps exactly the routes current authority supports, each with exactly its bound, with counters exact |
| `RouteStoreObjects.RouteStore.InsertVerified` | crates/hns-hnsr-protocol/src/routing.rs:1621-1777 | list, ledger entry, revision and all three counters move together as specified, or not at all, with what `RouteLives.PublicationLives` says of the live routes and of the answer |
| `RouteStoreObjects.RouteStore.PutNamedV3` | crates/hns-hnsr-protocol/src/routing.rs:1013-1095 | the whole admission, from the rate limiter's answer and the decoded record through the unverified checks to insertion, with counters exact on every path and the same said of live routes and answer |
| `RouteStoreObjects.RouteStore.PutPlainRoute` | crates/hns-hnsr-protocol/src/routing.rs:850-946 | rate limit, decoding, replacement and quota rules of the older models, with counters exact; a live route gives way only to a greater sequence |
| `RouteStoreObjects.RouteStore.Get` | crates/hns-hnsr-protocol/src/routing.rs:1789-1826 | the unexpired, unhidden routes of one model and key, greatest sequence first, none left out but for the limit; counters exact |
| `RouteStoreObjects.RouteStore.RestoreLedger` | crates/hns-hnsr-protocol/src/routing.rs:801-845 | restores only into a fresh, compatible store, with the per-route counts of the restored ledger |
| `LedgerSnapshots.ImageRoundTrip` | crates/hns-hnsr-protocol/src/routing.rs:132-306 | a well-formed image decodes to itself |
| `LedgerSnapshots.HeaderLayout` | crates/hns-hnsr-protocol/src/routing.rs:132-156 | magic, schema and the seven numbers of the header stand at their offsets, little-endian |
| `LedgerSnapshots.ItemLayout` | crates/hns-hnsr-protocol/src/routing.rs:157-167 | so do the nine fields of an entry |
| `LedgerSnapshots.ListingAdmitted` | crates/hns-hnsr-protocol/src/routing.rs:774-795 | the sorted entries of a bounded ledger pass the decoder's order, run-length and value checks |
| `LedgerSnapshots.SnapshotSurvives` | crates/hns-hnsr-protocol/src/routing.rs:132-306 | whatever a reachable store captures survives encode then decode, giving back the same ledger |
| `LedgerSnapshots.DecodeItems` | crates/hns-hnsr-protocol/src/routing.rs:238-292 | the entry loop reads exactly what the recursive reader reads |
| `RateLimiters.RateLimiter.ChargeVerification` | crates/hns-hnsr-protocol/src/routing.rs:1280-1318 | opens, renews and charges the two windows as specified, also when their ends saturate, and never keeps more windows than the total limit |
| `RateLimiters.ChargeBounded` | crates/hns-hnsr-protocol/src/routing.rs:1280-1318 | one charge keeps the per-source map no larger than the global attempts, which stay within their limit |
| `RateLimiters.EveryHistoryBounded` | crates/hns-hnsr-protocol/src/routing.rs:1280-1318 | so from an idle limiter, after every history under any clock, the windows kept are within the total limit |
| `RateLimiters.AtMostTwice` | crates/hns-hnsr-protocol/src/routing.rs:1280-1318 | with a clock that does not go back, any interval as long as the window admits at most twice the limit |
| `RateLimiters.AtMostTwiceFrom` | crates/hns-hnsr-protocol/src/routing.rs:1280-1318 | and at most twice the per-source limit of any one source |
| `RateLimiters.SourceWindowsEndTogether` | crates/hns-hnsr-protocol/src/routing.rs:1300-1312 | under such a clock a source's window is never renewed on its own: the global one is over first |
| `PersistentRoutes.DoSettles` | crates/hns-hnsr-protocol/src/persistent_routing.rs:452-467 | a mutation at `now` leaves the ledger untouched or fully pruned at `now`, so that a failing capture means an untouched ledger |
| `PersistentRoutes.ArrivalKeeps` | crates/hns-hnsr-protocol/src/persistent_routing.rs:418-429 | a write that arrives late or again moves storage, if at all, to exactly what is pending |
| `PersistentRoutes.RunKeeps` | crates/hns-hnsr-protocol/src/persistent_routing.rs:452-503 | an outcome that may be sent, a failed mutation or capture included, is reached only with memory, acknowledgement and storage equal |
| `PersistentRoutes.OpenKeeps` | crates/hns-hnsr-protocol/src/persistent_routing.rs:369-412 | opening on whatever storage holds establishes the invariant |
| `PersistentRoutes.OpenFloor` | crates/hns-hnsr-protocol/src/persistent_routing.rs:369-412 | a service opens only at or above the revision floor, acknowledges exactly what storage holds, and has pending exactly what pruning changed |
| `PersistentRoutes.WriteFails` | crates/hns-hnsr-protocol/src/persistent_routing.rs:418-429 | a pending write fails as a lost lease exactly when the fence has moved on, and then touches nothing |
| `PersistentRoutes.HandleKeeps` | crates/hns-hnsr-protocol/src/persistent_routing.rs:793-870 | the same for a whole packet, and every named route returned is current in the durable ledger |
| `PersistentAnswers.GetAnswers` | crates/hns-hnsr-protocol/src/persistent_routing.rs:836-870 | a lookup answers with the best live version-3 routes of the key, then the best live version-1 routes in the room left, and omits nothing live while there is room |
| `PersistentAnswers.PutAnswers` | crates/hns-hnsr-protocol/src/persistent_routing.rs:800-835 | a publication is answered with the life of the route that is then in the store |
| `PersistentAnswers.HandleAnswers` | crates/hns-hnsr-protocol/src/persistent_routing.rs:793-870 | every packet answered is answered so, whatever becomes of its writes |
| `LeasedServices.EmissionIsSafe` | crates/hns-hnsr-protocol/src/persistent_routing.rs:1331-1385 | at an emission storage holds exactly the volatile ledger; a lost lease or unfinished delivery leaves no volatile route |
| `LeasedServices.MutationIsSafe` | crates/hns-hnsr-protocol/src/persistent_routing.rs:1148-1178 | a current-authority mutation keeps the invariant; a lost lease leaves no volatile route |
| `LeasedServices.DeliveryNeedsLease` | crates/hns-hnsr-protocol/src/persistent_routing.rs:1331-1385 | nothing is emitted unless the lease was held at the start and just before; nothing completes unless it is held to the end |
| `LeasedServices.MutationNeedsLease` | crates/hns-hnsr-protocol/src/persistent_routing.rs:1148-1178 | a current-authority mutation completes only under both leases throughout, and emits nothing |
| `LeasedServices.EveryEmissionIsSafe` | crates/hns-hnsr-protocol/src/persistent_routing.rs:1331-1385 | over every run with reopenings, takeovers and late or repeated writes between operations and before any write inside one, ambiguous writes and interrupted deliveries, every emission was so backed |
| `PersistentObjects.PersistentStore.PersistPending` | crates/hns-hnsr-protocol/src/persistent_routing.rs:418-429 | keeps memory, acknowledgement and storage in step as far as the pending write; success makes them one ledger, a failure keeps the transition |
| `PersistentObjects.PersistentStore.CaptureCurrent` | crates/hns-hnsr-protocol/src/persistent_routing.rs:487-503 | a ledger that differs from the acknowledged one becomes the pending transition; a failed prune is reported |
| `PersistentObjects.PersistentStore.RunPersisted` | crates/hns-hnsr-protocol/src/persistent_routing.rs:452-467 | settle, mutate, capture, write, and only then answer: an answer that may be sent comes with memory, acknowledgement and storage equal |
| `PersistentObjects.PersistentStore.Handle` | crates/hns-hnsr-protocol/src/persistent_routing.rs:793-870 | retries the pending write before looking at a packet; whatever may be sent comes with the three equal, and answers as `PersistentAnswers.HandleAnswers` says |
| `PersistentObjects.LeasedService.BeginOperation` | crates/hns-hnsr-protocol/src/persistent_routing.rs:1519-1533 | refuses a poisoned service, and poisons one that is in flight or has lost its lease |
| `PersistentObjects.LeasedService.HandleAndEmit` | crates/hns-hnsr-protocol/src/persistent_routing.rs:1331-1385 | a completed emission leaves storage, acknowledgement and the volatile ledger equal; a lost lease, a failed or a dropped delivery leaves no store |
| `PersistentObjects.LeasedService.MutateCurrent` | crates/hns-hnsr-protocol/src/persistent_routing.rs:1148-1178 | keeps the service in step with storage; a lost lease, of either kind, leaves no store |
| `PersistentObjects.OpenStore` | crates/hns-hnsr-protocol/src/persistent_routing.rs:369-412 | opens exactly as specified on absent or initialised storage |
| `CircuitRelayInvariants.QueueKeeps` | crates/hns-hnsr-protocol/src/circuit.rs:1830-1892 | queueing keeps every action cap and names live work |
| `CircuitRelayInvariants.HandleKeeps` | crates/hns-hnsr-protocol/src/circuit.rs:1286-1302 | every circuit packet keeps the relay's invariant |
| `CircuitRelayInvariants.AcknowledgeKeeps` | crates/hns-hnsr-protocol/src/circuit.rs:1309-1361 | an acknowledgement, delivered or failed, keeps queue counts exact |
| `CircuitRelayInvariants.RevokeEachKeeps` | crates/hns-hnsr-protocol/src/circuit.rs:1894-1943 | revoking any list of work in any order keeps the invariant and removes exactly that work |
| `CircuitRelayInvariants.DisconnectKeeps` | crates/hns-hnsr-protocol/src/circuit.rs:1364-1409 | after a disconnect no work of that peer is left |
| `CircuitRelayInvariants.RevokeReservationKeeps` | crates/hns-hnsr-protocol/src/circuit.rs:1412-1447 | after a revocation no work on that reservation is left |
| `CircuitRelayInvariants.ExpireKeeps` | crates/hns-hnsr-protocol/src/circuit.rs:1450-1485 | expiry keeps the invariant |
| `CircuitRelayInvariants.ReplaceEnabledKeeps` | crates/hns-hnsr-protocol/src/circuit.rs:1260-1282 | a policy change starts a generation with no stale action; disabling revokes all work |
| `CircuitRelayInvariants.RejectionChangesNothing` | crates/hns-hnsr-protocol/src/circuit.rs:1286-1302 | at the level of a packet: a rejected DATA, WINDOW or ACCEPT changes something beyond the clock exactly when no sequence number is left and the same relay with one would accept |
| `CircuitRelayInvariants.DataRejection` | crates/hns-hnsr-protocol/src/circuit.rs:1634-1725 | the same equivalence for DATA, over the state before the call |
| `CircuitRelayInvariants.WindowRejection` | crates/hns-hnsr-protocol/src/circuit.rs:1727-1764 | the same for WINDOW |
| `CircuitRelayInvariants.AcceptRejection` | crates/hns-hnsr-protocol/src/circuit.rs:1565-1632 | the same for ACCEPT |
| `CircuitRelayInvariants.SequenceLeft` | crates/hns-hnsr-protocol/src/circuit.rs:1844-1848 | no packet is refused for want of a sequence number while one is left |
| `CircuitRelayInvariants.ExhaustedDataSpendsCredit` | crates/hns-hnsr-protocol/src/circuit.rs:1634-1725 | at a relay that satisfies the invariant and has used its last sequence number, DATA is refused, yet the sender's credit falls and the queue count rises by its bytes with no action in flight, so the invariant is lost |
| `CircuitRelayInvariants.RestartConservesIff` | crates/hns-hnsr-protocol/src/circuit.rs:1175-1211 | admitted opens stay accounted for across a restart exactly when no action was in flight |
| `CircuitRelayInvariants.RestartAfterOneOpen` | crates/hns-hnsr-protocol/src/circuit.rs:1175-1211 | one admitted OPEN on a fresh relay leaves one action in flight, and a restart then loses the account |
| `CircuitRelayRuns.RunKeeps` | crates/hns-hnsr-protocol/src/circuit.rs:1309-1978 | in every run actions other than closures name live work, queue counts are the bytes in flight and bounded, all caps hold, and admitted opens are pending, active or revoked |
| `CircuitRelayRuns.ActionIdsNeverReused` | crates/hns-hnsr-protocol/src/circuit.rs:1839-1848 | generations never go back; within one, an identifier issued earlier and in flight later was in flight all along with the same action, so an acknowledged one never returns |
| `CircuitBudgets.DataCharges` | crates/hns-hnsr-protocol/src/circuit.rs:1634-1725 | forwarded DATA is charged byte for byte to its circuit and its reservation within both limits, and to nothing else |
| `CircuitBudgets.UsageCounts` | crates/hns-hnsr-protocol/src/circuit.rs:1695-1711 | in every run a reservation's usage is exactly the DATA bytes forwarded on it since it was entered, up to saturation |
| `CircuitBudgets.ReservationBudget` | crates/hns-hnsr-protocol/src/circuit.rs:1634-1725 | in every run, from the entry of its usage until that is dropped, a reservation carries no more DATA bytes over all its circuits than its ticket allows |
| `CircuitBudgets.CircuitBudget` | crates/hns-hnsr-protocol/src/circuit.rs:1634-1725 | and a circuit over its life no more than its ticket allows each circuit |
| `CircuitMeanings.OpenMeans` | crates/hns-hnsr-protocol/src/circuit.rs:1487-1563 | an admitted OPEN adds exactly one pending open on its ticket's terms and deadline, with budget left and no twin, and tells its endpoint |
| `CircuitMeanings.RefusedOpenIsFull` | crates/hns-hnsr-protocol/src/circuit.rs:1487-1515 | an OPEN is refused for capacity only if something it must fit in is full or taken |
| `CircuitMeanings.AcceptMeans` | crates/hns-hnsr-protocol/src/circuit.rs:1565-1632 | an ACCEPT in time by its endpoint makes exactly one circuit, on the ticket's terms, with the window both ways, and tells the requester |
| `CircuitMeanings.CloseMeans` | crates/hns-hnsr-protocol/src/circuit.rs:1766-1828 | a CLOSE ends exactly one piece of its sender's work and tells the other party under the name it knows |
| `CircuitMeanings.AckMeans` | crates/hns-hnsr-protocol/src/circuit.rs:1309-1361 | a delivered write takes off its action alone; a failed one takes off its work too, and tells a waiting requester |
| `CircuitMeanings.ExpireMeans` | crates/hns-hnsr-protocol/src/circuit.rs:1450-1485 | expiry takes exactly what is past its deadline or ticket, and lapsed usage |
| `CircuitMeanings.DisconnectMeans` | crates/hns-hnsr-protocol/src/circuit.rs:1364-1409 | a disconnect takes exactly the peer's work |
| `CircuitMeanings.ReservationMeans` | crates/hns-hnsr-protocol/src/circuit.rs:1412-1447 | a revocation takes exactly the reservation's work and its usage |
| `CircuitMeanings.RevocationTells` | crates/hns-hnsr-protocol/src/circuit.rs:1894-1943 | with room, both parties of revoked work are told, each under the name it knows; work that lost a party tells the other |
| `CircuitMeanings.DataIff` | crates/hns-hnsr-protocol/src/circuit.rs:1634-1685 | DATA is forwarded exactly when it fits every budget, credit, queue and action bound |
| `CircuitMeanings.WindowIff` | crates/hns-hnsr-protocol/src/circuit.rs:1727-1764 | WINDOW is forwarded exactly when the credit it grants stays within the bound |
| `CircuitMeanings.HandleGuards` | crates/hns-hnsr-protocol/src/circuit.rs:1286-1302 | a packet from the past or to a relay that is off changes nothing but the clock; each kind goes to its handler |
| `CircuitMeanings.PolicyMeans` | crates/hns-hnsr-protocol/src/circuit.rs:1260-1282 | a policy change needs the current generation and starts the next, with no action carried over |
| `CircuitRequesters.TakeNeverFails` | crates/hns-hnsr-protocol/src/circuit.rs:707-739 | a buffered frame can always be taken, returns exactly its credit and keeps the window |
| `CircuitRequesters.BeginOpenKeeps` | crates/hns-hnsr-protocol/src/circuit.rs:564-635 | opening keeps the circuit bound and the count of admitted opens, as `CircuitRequesterRuns.RunKeeps` needs of every event |
| `CircuitRequesters.HandleKeeps` | crates/hns-hnsr-protocol/src/circuit.rs:638-657 | every relay packet keeps the requester's invariant |
| `CircuitRequesters.CloseCircuitKeeps` | crates/hns-hnsr-protocol/src/circuit.rs:742-758 | a close moves the circuit to the revoked count, or to the lost ones if its detail is too long |
| `CircuitRequesters.CancelOpenKeeps` | crates/hns-hnsr-protocol/src/circuit.rs:761-777 | the same for cancelling a pending open |
| `CircuitRequesters.CloseConservesIff` | crates/hns-hnsr-protocol/src/circuit.rs:742-758 | a close keeps every open accounted for exactly when it names no live circuit or its detail fits 128 bytes |
| `CircuitRequesters.CancelConservesIff` | crates/hns-hnsr-protocol/src/circuit.rs:761-777 | and a cancel exactly when it names no pending open or its detail fits |
| `CircuitRequesters.DisconnectKeeps` | crates/hns-hnsr-protocol/src/circuit.rs:780-803 | a disconnect moves all work of the relay to the revoked count |
| `CircuitRequesters.ExpireKeeps` | crates/hns-hnsr-protocol/src/circuit.rs:806-833 | so does expiry |
| `CircuitRequesters.ReplaceEnabledKeeps` | crates/hns-hnsr-protocol/src/circuit.rs:537-557 | and disabling |
| `CircuitRequesters.RestoreConserves` | crates/hns-hnsr-protocol/src/circuit.rs:454-486 | admitted opens stay accounted for across snapshot and restore: what was live is revoked |
| `CircuitRequesterRuns.NewOk` | crates/hns-hnsr-protocol/src/circuit.rs:430-449 | a new requester satisfies the invariant |
| `CircuitRequesterRuns.RunKeeps` | crates/hns-hnsr-protocol/src/circuit.rs:430-833 | in every run of opens, sends, takes, packets, closes, cancels, disconnects, ticks, policy changes and restarts, links are sound, the circuit bound holds, and the account is short by exactly the opens lost |
| `CircuitRequesterRuns.AdmittedCountsOpens` | crates/hns-hnsr-protocol/src/circuit.rs:564-635 | the admitted counter is the number of opens the run admitted, up to saturation, restarts included |
| `CircuitRequesterRuns.EveryOpenAccounted` | crates/hns-hnsr-protocol/src/circuit.rs:454-524 | in every run the opens admitted so far are exactly the pending, the active, the revoked and the lost ones, restarts included |
| `CircuitRequesterRuns.BalancedIff` | crates/hns-hnsr-protocol/src/circuit.rs:742-777 | pending, active and revoked opens make up the admitted ones exactly if no close or cancel of live work so far had a detail over 128 bytes |
| `CircuitRequesterRuns.AnOpenIsLost` | crates/hns-hnsr-protocol/src/circuit.rs:761-777 | a run of one open and one cancel with 129 bytes of detail: admitted, and neither pending, active nor revoked |
| `CircuitRequesterRuns.EveryFrameCanBeTaken` | crates/hns-hnsr-protocol/src/circuit.rs:707-739 | in every run a buffered frame can be taken and its window is kept |
| `CircuitRequesterBudgets.UsageCounts` | crates/hns-hnsr-protocol/src/circuit.rs:660-704 | in every run a reservation's usage is exactly the DATA bytes sent and received on it since it was entered, up to saturation |
| `CircuitRequesterBudgets.ReservationBudget` | crates/hns-hnsr-protocol/src/circuit.rs:880-932 | with every DATA sent or received, the bytes carried on its reservation both ways are within what the link's ticket allows |
| `CircuitMeanings.BeginMeans` | crates/hns-hnsr-protocol/src/circuit.rs:564-635 | an open that is begun was allowed in every respect and waits exactly as asked for |
| `CircuitMeanings.OpenedMeans` | crates/hns-hnsr-protocol/src/circuit.rs:835-878 | an OPENED is believed exactly of the relay asked, in time, with no more window than offered, and of a new circuit |
| `CircuitMeanings.SendIff` | crates/hns-hnsr-protocol/src/circuit.rs:660-704 | DATA is sent exactly when it fits both budgets and the send credit |
| `CircuitMeanings.ReceiveIff` | crates/hns-hnsr-protocol/src/circuit.rs:880-932 | and received exactly when it fits both budgets, the receive credit and the queue |
| `CircuitMeanings.GrantIff` | crates/hns-hnsr-protocol/src/circuit.rs:934-953 | a WINDOW is taken exactly from the link's relay and within the bound |
| `CircuitMeanings.RequesterCloseMeans` | crates/hns-hnsr-protocol/src/circuit.rs:955-981 | a CLOSE is believed exactly of the relay concerned, and drops exactly what it names |
| `CircuitMeanings.RequesterCloseTells` | crates/hns-hnsr-protocol/src/circuit.rs:742-777 | closing and cancelling tell the relay under the name it knows |
| `CircuitMeanings.RequesterExpireMeans` | crates/hns-hnsr-protocol/src/circuit.rs:806-833 | expiry takes exactly what is past its deadline or ticket |
| `CircuitMeanings.RequesterDisconnectMeans` | crates/hns-hnsr-protocol/src/circuit.rs:780-803 | a disconnect takes exactly the relay's work |
| `CircuitMeanings.RequesterGuards` | crates/hns-hnsr-protocol/src/circuit.rs:638-657 | a packet from the past or to a requester that is off changes nothing but the clock; each kind goes to its handler |
| `CircuitMeanings.RequesterPolicyMeans` | crates/hns-hnsr-protocol/src/circuit.rs:537-557 | a policy change needs the current generation, starts the next, and leaves nothing once off |
| `CircuitMeanings.RestoreMeans` | crates/hns-hnsr-protocol/src/circuit.rs:454-486 | a requester is restored exactly at or above the generation floor and not into the past, in a new generation, with nothing live |
| `CircuitSystem.StepKeeps` | crates/hns-hnsr-protocol/src/circuit.rs:835-953 | credit both ways is bounded through every step of either machine, restarts of both from any snapshot, any other peer, and any loss |
| `CircuitSystem.RelayNeverShortOfCredit` | crates/hns-hnsr-protocol/src/circuit.rs:1668-1675 | the relay never refuses the requester's DATA for want of credit |
| `CircuitSystem.RequesterNeverShortOfCredit` | crates/hns-hnsr-protocol/src/circuit.rs:906-911 | the requester never refuses the relay's DATA for want of credit |
| `CircuitSystem.WindowsNeverOverflow` | crates/hns-hnsr-protocol/src/circuit.rs:934-953 | no WINDOW between them overflows the bound, in either direction |
| `CircuitSystem.WindowsAreKept` | crates/hns-hnsr-protocol/src/circuit.rs:707-739 | receive credit and buffered bytes always make up the accepted window |
| `CircuitObjects.RelayMachine.EnsureActionCapacity` | crates/hns-hnsr-protocol/src/circuit.rs:1863-1892 | the counting loop decides exactly whether one more action fits |
| `CircuitObjects.RelayMachine.QueueControl` | crates/hns-hnsr-protocol/src/circuit.rs:1830-1861 | one action under the next sequence number, or a refusal that changes nothing |
| `CircuitObjects.DropFor` | crates/hns-hnsr-protocol/src/circuit.rs:1967-1978 | the loop removes exactly the actions of one circuit |
| `CircuitObjects.RelayMachine.OpenFrom` | crates/hns-hnsr-protocol/src/circuit.rs:1487-1563 | admission in the program's order of checks keeps the invariant for a fresh identifier; success enters the open and tells its endpoint, a different peer |
| `CircuitObjects.RelayMachine.Accept` | crates/hns-hnsr-protocol/src/circuit.rs:1565-1632 | keeps the invariant; success turns the endpoint's pending open into a circuit with the accepted window both ways, no more than was asked, and sends OPENED |
| `CircuitObjects.RelayMachine.Forward` | crates/hns-hnsr-protocol/src/circuit.rs:1634-1725 | with a sequence number left keeps the invariant and a refusal changes nothing; success turns exactly the bytes from the sender's credit into bytes queued to the other side, and charges them to the circuit and its reservation alone, within both limits |
| `CircuitObjects.RelayMachine.Grant` | crates/hns-hnsr-protocol/src/circuit.rs:1727-1764 | keeps the invariant, a refusal with a sequence number left changes nothing; success adds exactly the delta to the other side's credit within the bound |
| `CircuitObjects.RelayMachine.CloseFrom` | crates/hns-hnsr-protocol/src/circuit.rs:1766-1828 | keeps the invariant; closes the one pending open or circuit a wire context means for its sender, and tells the other side |
| `CircuitObjects.RelayMachine.Ack` | crates/hns-hnsr-protocol/src/circuit.rs:1309-1361 | keeps queue counts exact; releases the bytes of a finished write, and a failed one revokes the work it belonged to |
| `CircuitObjects.RelayMachine.RevokeListed` | crates/hns-hnsr-protocol/src/circuit.rs:1894-1943 | the two revocation loops remove the listed work in order, with best-effort closures |
| `CircuitObjects.RelayMachine.SetEnabled` | crates/hns-hnsr-protocol/src/circuit.rs:1260-1282 | keeps the invariant through a new generation without actions; disabling revokes all work |
| `CircuitObjects.RelayMachine.DisconnectPeer` | crates/hns-hnsr-protocol/src/circuit.rs:1364-1409 | keeps the invariant and leaves no work of the peer |
| `CircuitObjects.RelayMachine.RevokeFor` | crates/hns-hnsr-protocol/src/circuit.rs:1412-1447 | keeps the invariant and leaves no work on the reservation |
| `CircuitObjects.RelayMachine.ExpireAt` | crates/hns-hnsr-protocol/src/circuit.rs:1450-1485 | keeps the invariant through expiry |
| `CircuitObjects.RelayMachine.HandlePacket` | crates/hns-hnsr-protocol/src/circuit.rs:1286-1302 | any packet keeps the invariant while a sequence number is left, and a refused DATA, WINDOW or ACCEPT then changes nothing but the clock |
| `CircuitObjects.RequesterMachine.Begin` | crates/hns-hnsr-protocol/src/circuit.rs:564-635 | keeps the invariant and every link; success adds exactly one waiting open within the bound and its OPEN, a refusal leaves waiting opens and counters alone |
| `CircuitObjects.RequesterMachine.Send` | crates/hns-hnsr-protocol/src/circuit.rs:660-704 | keeps the invariant and every other link; success spends exactly the bytes from send credit and charges them to link and reservation within their limits, a refusal changes nothing |
| `CircuitObjects.RequesterMachine.Take` | crates/hns-hnsr-protocol/src/circuit.rs:707-739 | succeeds exactly when enabled with a frame buffered; then it returns the oldest frame's credit as a WINDOW and keeps the window, otherwise it changes nothing |
| `CircuitObjects.RequesterMachine.Establish` | crates/hns-hnsr-protocol/src/circuit.rs:835-878 | keeps the invariant and the number of waiting and active opens together; success makes a link with the accepted window both ways, no more than was asked, a refusal changes nothing |
| `CircuitObjects.RequesterMachine.Buffer` | crates/hns-hnsr-protocol/src/circuit.rs:880-932 | keeps the invariant, the window and the send credit; success appends the frame in arrival order, spends exactly its receive credit and charges link and reservation, a refusal changes nothing |
| `CircuitObjects.RequesterMachine.Replenish` | crates/hns-hnsr-protocol/src/circuit.rs:934-953 | keeps the invariant and the receive side; success adds exactly the delta to send credit within the bound, a refusal changes nothing |
| `CircuitObjects.RequesterMachine.CloseFrom` | crates/hns-hnsr-protocol/src/circuit.rs:955-1008 | keeps the invariant; success removes exactly one waiting open or link, a refusal changes nothing |
| `CircuitObjects.RequesterMachine.ExpireAt` | crates/hns-hnsr-protocol/src/circuit.rs:806-833 | keeps the invariant and leaves no expired link |
| `CircuitObjects.RequesterMachine.CloseLink` | crates/hns-hnsr-protocol/src/circuit.rs:742-758 | the circuit goes in every case; success exactly if it was live and the detail fits, and exactly one open is lost if it does not |
| `CircuitObjects.RequesterMachine.Cancel` | crates/hns-hnsr-protocol/src/circuit.rs:761-777 | the same for a waiting open |
| `CircuitObjects.RequesterMachine.DisconnectFrom` | crates/hns-hnsr-protocol/src/circuit.rs:780-803 | keeps the invariant and leaves no work with the relay |
| `CircuitObjects.RequesterMachine.SetEnabled` | crates/hns-hnsr-protocol/src/circuit.rs:537-557 | keeps the invariant; disabling leaves no work, a refusal changes nothing |
| `CircuitObjects.RequesterMachine.HandlePacket` | crates/hns-hnsr-protocol/src/circuit.rs:638-657 | any packet keeps the invariant, and a refused one changes nothing but the clock |

## Left out

- Cryptography (ECDSA, BLAKE2b, SHA-3, key validity), lease guard types, witness lifetimes and error texts.
- Crates and modules with only abstract contracts here: the relay reservation service, the HNSA authority state, primitives, script, swap, Urkel trees and the rollback journal.
- The fixed-layout packet, record and contact codecs, and the requester and circuit snapshot codecs: field-by-field layouts that would repeat what the ledger and name-state codecs prove.
- Legacy version-2 trust checks and owner-key recovery: the version-2 route itself is stored through the same path as version 1.
- Sampling, XOR distance, `is_conflicted`, `prune_all` and response truncation: short readers of state already covered.
- The retrieval wrapper around a selection: it composes the time advance, selection and gate that are modelled; authority binding at the gate is one boolean.
- Dropping a leased operation between two of its writes: it leaves what a failing write followed by a failed final lease check leaves, apart from the in-flight flag of the poisoned service.
- Opaque payload bytes of a circuit are represented by their lengths, and CLOSE and ERROR are one packet, so the two differ in no error code.
- RequesterSystem.NextKeeps: a reconfirmation or a write that fails without touching storage is a stuttering step and is not listed as a separate action.
- CircuitRelayInvariants.HandleKeeps: assumes a sequence number is left, because without one the accounting of a rejected DATA is the exception proved in `ExhaustedDataSpendsCredit`.
- CircuitRelayRuns.RunKeeps: describes a freshly created relay; a restored one starts from the counters of `RestartConservesIff`.
