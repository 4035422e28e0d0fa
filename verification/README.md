# Formal model of the billing, delivery and fleet services

A Dafny model of the parts of the system where a mistake costs money, access or nodes, with
proofs that hold for every input, every run and every interleaving. `dafny verify dfyconfig.toml`
checks the whole project. Instants are integers (nanoseconds, 0 is the unset instant), token
counts, shares and amounts are reals, digests are modelled by their preimages.

## How it is laid out

**The billing credit protocol** (the largest part).
`Ledger` is billing's durable store as a value, one function per store call, each call one
transaction. `MemoryStore` is the store as the source keeps it, maps updated in place, every method
proved to do what its `Ledger` function says. `Registry` is the control-plane's register, fenced by
revision; `ControlPlane` is its object form. `Protocol` puts them into one transition system: any
number of webhook handlers, pollers, recovery passes and sweepers, on any number of instances,
interleave at single calls, stop anywhere, read arbitrary clocks, and their calls to the
control-plane are lost, repeated and reordered. `Invariant` and `Preservation` hold the inductive
invariant. `Credit` and `Convergence` draw the safety theorems from it. `Recovery` and `Reconcile`
prove that one recovery pass finishes everything it can, with other tasks running between any two of
its calls; `Stranded` says exactly which claims no pass can reach. `PollSweep` and `Poller` are the
on-chain poll and the expiry sweep, `Sweeper` the schedule sweep, `Intents` the invoice creation.

**Codecs**: `Digits` (positional notation), `Base32`, `DnsText`, `Artifact`, `TextArray`, `Carrier`.
**Structures**: `TokenBucket`, `Limiters`, `PayloadCache`, `NotificationCursor`.
**Fleet and access**: `Planner`, `Feedback`, `FleetCycle`, `Aggregation`, `Revisions`, `Admission`.

## What the code does that its comments do not say

- A negative chain check is stamped with the time it is recorded, not the time the chain answered
  (`services/billing/internal/payment/poller.go:204-207`). A payment confirmed less than one poll
  lease before the deadline can therefore be buried. `PollSweep.BurialWindow` gives the window
  exactly; `PollSweep.TimelyPaymentIsNeverBuried` says what is safe.
- Recovery asks for pending invoices only (`services/billing/internal/store/memory.go:253-264`), so it
  reaches a claimed, uncredited invoice if and only if that was pending when it was claimed and no
  provider verdict has overwritten it since (`Stranded.RecoverableExactly`, over every run). Both
  halves fail in real runs: a verdict after a crash between claim and staging
  (`Stranded.VerdictStrandsAClaim`), and, without any verdict, a payment reported after the expiry
  sweep has closed the invoice, since settling does not look at the status
  (`Stranded.LatePaymentStrandsAClaim`). Such an invoice is paid and claimed and stays uncredited.
- `resolveInvoiceIntent` answers with what the gateway returned, not with the stored row. The successes
  for a key agree in every run if and only if the gateway gives one invoice for one order
  (`Intents.AnswersAgreeExactly`).
- The request digest joins fields with a separator it does not escape, and only the request that
  reserves a key is priced. A success asked for what its key is bound to if and only if its currency
  holds no separator (`Intents.AnswersMatchTheKey`); in a run with one that does, another user is
  answered with the first one's invoice (`Intents.CollidingRequestIsAnswered`). That run needs a store
  that takes a NUL in a user id, as the in-memory one does; the production columns are PostgreSQL TEXT
  (`services/billing/internal/store/schema.sql:32-43`), which refuses it, so there the binding holds
  (`Intents.PlainStoreKeepsTheBinding`).
- With several expiry sweepers a schedule's status goes back between credits if and only if a sweep
  whose clock is inside the grace follows one whose clock was past it (`Sweeper.GoesBackExactly`).
- A replacement drains the old pair from the records listed at the beginning of the cycle. If the same
  cycle has retired the other half, that turns it back to draining; with one exit
  per entry and a readable registry, a node a successful cycle was to retire is retired exactly if its
  other half is not replaced too (`FleetCycle.RetiredExactly`), and it happens
  (`FleetCycle.RetirementTakenBack`).
- `node_down.sh` takes down both halves of a pair. Retiring a draining exit whose entry still serves, as
  a replacement whose second drain failed leaves it, costs that entry, and only that does
  (`FleetCycle.TeardownCostsExactly`). A retirement also counts as done when the registry cannot be read
  back, whether or not the script reached it (`FleetCycle.Loop.DoRetire`).
- Dropping idle buckets is lossless only if the burst fits into the rate over the idle time
  (`TokenBucket.EvictionIsInvisible`); the constructors do not check it.
- A text array whose last element is empty loses that element (`TextArray.RoundTrip`); a query name
  has no limit on its whole length (`DnsText.NameLength`); a token keeps its cache entries to itself if
  and only if it holds no bar (`PayloadCache.BarFreeExactly`).

## Model

| member | source | states |
|---|---|---|
| MemoryStore.Memory.SetStatus | services/billing/internal/store/memory.go:178-188 | writes the status of a known invoice and nothing else |
| MemoryStore.Memory.Claim | services/billing/internal/store/memory.go:216-224 | only the first caller gets the claim; later ones change nothing |
| MemoryStore.Memory.LeaseStuckSettlements | services/billing/internal/store/memory.go:242-278 | leases a batch of distinct stuck claims, oldest first, up to the limit, leaving no older one behind |
| MemoryStore.OldestFirst | services/billing/internal/store/memory.go:267-276 | sorts distinct keys by age and keeps the oldest up to the limit |
| MemoryStore.Memory.Expire | services/billing/internal/store/memory.go:280-313 | expires exactly the overdue invoices of the sweep predicate and touches nothing else |
| MemoryStore.Memory.AcquirePoll | services/billing/internal/store/memory.go:317-327 | a live lease refuses; a lapsed or absent one is taken under the new token |
| MemoryStore.Memory.RenewPoll | services/billing/internal/store/memory.go:330-339 | extends only for the token on the lease |
| MemoryStore.Memory.ReleasePoll | services/billing/internal/store/memory.go:342-349 | drops only for the token on the lease |
| MemoryStore.Memory.RecordNegative | services/billing/internal/store/memory.go:352-359 | stamps a pending invoice only |
| MemoryStore.Memory.ClearNegative | services/billing/internal/store/memory.go:362-369 | wipes the stamp of a pending invoice only |
| MemoryStore.Memory.Reserve | services/billing/internal/store/memory.go:371-386 | first reservation wins; the same key with another digest conflicts |
| MemoryStore.Memory.BeginCreate | services/billing/internal/store/memory.go:388-401 | moves reserved to creating once |
| MemoryStore.Memory.CompleteCreate | services/billing/internal/store/postgres.go:136-166 | write-once invoice row, checked against the reserved order and provider |
| MemoryStore.Memory.FailCreate | services/billing/internal/store/memory.go:419-429 | marks the intent failed |
| MemoryStore.Memory.StageCredit | services/billing/internal/store/memory.go:441-477 | fixes the target once: period from the later of now and paid-through, next revision, outbox row; a second call returns the same row |
| MemoryStore.Memory.StageTransition | services/billing/internal/store/memory.go:479-500 | compare-and-swap on the revision; keeps the period |
| MemoryStore.Memory.LeaseBillingDeliveries | services/billing/internal/store/memory.go:502-529 | leases a batch of due outbox rows, oldest first |
| MemoryStore.Memory.CompleteDelivery | services/billing/internal/store/memory.go:531-552 | marks the row delivered and settles its invoice, both only the first time; a failure for a missing invoice leaves the row marked |
| Ledger.RoomyBatchIsComplete | services/billing/internal/store/memory.go:502-529 | with room for the backlog a lease batch is all of it |
| Ledger.RoomyStuckBatchIsComplete | services/billing/internal/store/memory.go:242-278 | the same for stuck claims |
| ControlPlane.Subscriptions.Apply | services/control-plane/internal/adapters/memory/launch.go:21-51 | validate, round, refuse a contradiction, write only a higher revision |
| ControlPlane.Subscriptions.Cancel | services/control-plane/internal/adapters/memory/launch.go:115-126 | sets the status by hand, nothing else |
| ControlPlane.Subscriptions.InsertAndLink | services/control-plane/internal/adapters/memory/memory.go:243-268 | insert and link are one step; an already linked account conflicts |
| ControlPlane.Subscriptions.Ensure | services/control-plane/internal/usecase/launch.go:22-45 | returns the linked subscription or creates one unpaid one, in one step |
| Registry.EnsureInStepsIsAtomic | services/control-plane/internal/usecase/launch.go:22-45 | the call as it is made, reading, creating and reading again with other calls in between, answers and acts like the one step at the moment of the creation |
| Registry.ApplyLogged | services/control-plane/internal/adapters/memory/launch.go:21-51 | one arrival of any entry of a numbered log is accepted, raises the register to the higher revision and touches no other record |
| Registry.FeedHoldsHighest | services/control-plane/internal/adapters/memory/launch.go:28-49 | fed any lossy, repeated, reordered arrivals of a log the register never conflicts and holds the highest revision received |
| Registry.CancelSurvivesReplay | services/control-plane/internal/domain/billing.go:12-24 | a manual cancel survives any replay of revisions already reached and keeps access closed |
| Preservation.ApplyKeeps | services/billing/internal/payment/processor.go:178-227 | every move of every task keeps the protocol invariant |
| Preservation.ReachableIsGood | services/billing/internal/payment/processor.go:84-153 | so every reachable state satisfies it |
| Preservation.ArriveKeeps | services/billing/internal/subscription/activator.go:67-85 | a delivered request is answered with success |
| Preservation.CompleteDeliveryKeeps | services/billing/internal/store/memory.go:531-552 | completing an accepted delivery never fails |
| Credit.PaidTimeConserved | services/billing/internal/store/memory.go:441-477 | over every run the instants paid for by a subscription's credits number exactly the sum of the bought durations, all before its paid-through instant |
| Credit.PeriodsDisjoint | services/billing/internal/store/memory.go:454-468 | two invoices never pay for the same instant |
| Credit.CreditIsFixed | services/billing/internal/subscription/activator.go:37-40 | once credited, an invoice keeps its one delivery with the same target for ever |
| Credit.RunKeepsRows | services/billing/internal/store/memory.go:441-552 | outbox rows never disappear, change target or become undelivered |
| Credit.NoAccessWithoutCredit | services/subscription/internal/resolve/resolve.go:103-114 | a subscription is servable at t only if a credit of its own, backed by a covering payment event, has grace past t |
| Credit.AccessIsPaid | packages/contracts/launch.go:86-92 | the same for any state of the invariant |
| Credit.SweepNeverCutsPaidTime | services/billing/internal/expiry/sweeper.go:33-85 | a staged transition keeps expiry and grace, has the status its clock demands, and no earlier credit reaches past that clock |
| Convergence.RevisionsAreConsecutive | services/billing/internal/store/memory.go:454-500 | staged deliveries carry each revision 1..n exactly once and the schedule is the newest |
| Convergence.ArrivalIsNeverRefused | services/control-plane/internal/adapters/memory/launch.go:28-37 | a request billing has sent is never refused, whenever it arrives |
| Convergence.RegisterIsHighestAccepted | services/control-plane/internal/adapters/memory/launch.go:38-49 | the register stands at the highest accepted revision |
| Convergence.DeliveredMeansConverged | services/billing/internal/subscription/activator.go:65-85 | once the newest delivery is completed ledger and register agree |
| Recovery.AnyMoveStands | services/billing/internal/payment/processor.go:84-92 | no move of any task takes away a row, a delivery, a fact of an invoice, a claim, a link or an answer |
| Recovery.OthersRunKeeps | services/billing/internal/payment/processor.go:84-92 | nor does any run of other tasks, verdicts, leases and claims of other passes included |
| Recovery.CalmMoveKeeps | services/billing/internal/payment/processor.go:84-92 | a move that writes no verdict over a claimed or settled invoice, stamps no old claim and takes no lease also leaves a claimed invoice pending or settled, a settled one settled, and the set of old claims as it was |
| Recovery.QuietRunKeeps | services/billing/internal/payment/processor.go:84-92 | so does any run of such moves |
| Recovery.ReachableIsSound | services/billing/internal/store/memory.go:531-552 | in every reachable state a delivered credit leaves no pending invoice, and every settled invoice is credited and delivered |
| Reconcile.Deployment.Finish | services/billing/internal/subscription/activator.go:67-85 | carries a delivery through its remote call and completes it |
| Reconcile.Deployment.CreditInvoice | services/billing/internal/subscription/activator.go:40-63 | ensures, stages and delivers; fails only for an account the control-plane does not know |
| Reconcile.Deployment.Deliver | services/billing/internal/payment/processor.go:102-115 | a leased row ends delivered |
| Reconcile.Deployment.FinishSettlement | services/billing/internal/payment/processor.go:158-176 | a leased claim of a known account ends credited and delivered whatever the others do, and settled if they write no verdict over a claimed invoice |
| Reconcile.Deployment.DeliverDue | services/billing/internal/payment/processor.go:93-118 | whatever the other tasks do, the batch of the first lease ends delivered |
| Reconcile.Deployment.SettleStuck | services/billing/internal/payment/processor.go:126-152 | every claim of a known account in the batch of the second lease ends credited and delivered, and settled among quiet bystanders; failures are counted and stop nothing |
| Reconcile.Deployment.Reconcile | services/billing/internal/payment/processor.go:93-153 | one pass, whatever runs between its calls, takes nothing away and with room for the backlog delivers every due row; among quiet bystanders it also credits and settles every stuck claim of a known account |
| Reconcile.NoExtraPeriod | services/billing/internal/payment/processor.go:155-157 | after a pass, whatever ran beside it, every credit is of a claimed, paid invoice and paid time is still the sum of the bought durations |
| Reconcile.LaterClaims | services/billing/internal/payment/processor.go:119-126 | between the two leases no claim becomes stuck, and one that stops being stuck is credited and settled |
| Stranded.RecoverableIsPending | services/billing/internal/store/memory.go:253-264 | some clock and threshold lease a claimed invoice exactly if it is pending |
| Stranded.PendingUntilVerdict | services/billing/internal/payment/processor.go:73-76 | along any run a claimed invoice that stays uncredited is pending at the end exactly if it was at the start and no verdict was written over it |
| Stranded.ClaimMoment | services/billing/internal/payment/processor.go:198-204 | every claim of a reachable state was taken at some step of its run |
| Stranded.RecoverableExactly | services/billing/internal/payment/processor.go:178-227 | over every run: recovery reaches a claimed, uncredited invoice if and only if it was pending when it was claimed and no verdict was written over it since |
| Stranded.VerdictStrandsAClaim | services/billing/internal/payment/processor.go:73-76 | a run in which a later verdict leaves a paid, claimed, uncredited invoice outside every recovery query |
| Stranded.LatePaymentStrandsAClaim | services/billing/internal/payment/processor.go:178-227 | a run without any verdict that does so: the payment is reported after the sweep has expired the invoice |
| PollSweep.CheckIsDefinitive | services/billing/internal/payment/onchain/onchain.go:108-136 | a positive passes every check of the settling path and, on a chain that only gains, stays positive |
| PollSweep.PlayIsWatched | services/billing/internal/payment/poller.go:168-209 | every run of pollers, sweeps and all other moves keeps the poll invariant |
| PollSweep.OneCheckerAtATime | services/billing/internal/store/memory.go:317-327 | two checks that may still act on an invoice are the same check |
| PollSweep.LiveHolderKeepsTheLease | services/billing/internal/store/postgres.go:423-439 | in every run a check whose time is not up keeps its lease through any step but its own release, and nobody else could release, renew or acquire it |
| PollSweep.SweepNeedsFreshNegative | services/billing/internal/store/postgres.go:377-398 | a swept on-chain invoice was unclaimed, without live lease, not disarmed, and recorded unpaid at or past the deadline on a chain answer less than one lease older |
| PollSweep.TimelyPaymentIsNeverBuried | services/billing/internal/payment/poller.go:108-116 | a payment confirmed a full lease before the deadline, or seen and disarmed while open, is never buried |
| PollSweep.BurialWindow | services/billing/internal/payment/poller.go:204-207 | a payment confirmed by the deadline can be buried exactly when it is confirmed within one lease of it |
| Poller.CheckLeased | services/billing/internal/payment/poller.go:186-209 | the store calls of one leased check |
| Poller.CheckTouchesOnlyItsMarker | services/billing/internal/payment/poller.go:183-209 | a check changes only its lease and the marker of its invoice |
| Poller.CheckArmsSweepOnlyLate | services/billing/internal/payment/poller.go:196-207 | a positive disarms the sweep, a negative arms it only at or past the deadline |
| Poller.FilterOpen | services/billing/internal/payment/poller.go:158-166 | the loop keeps exactly the orders whose deadline has not passed |
| Poller.PolledAreNotOverdue | services/billing/internal/payment/poller.go:155-166 | an order polled without grace is not one a sweep may expire |
| Sweeper.TakeUp | services/billing/internal/expiry/sweeper.go:43-69 | one schedule under its lock: staged exactly when its status must change |
| Sweeper.RunOnce | services/billing/internal/expiry/sweeper.go:33-71 | with other tasks running before every lock, each schedule goes through their events in order and, exactly if it was listed, through one sweep; if they are silent every due schedule gets the status its period demands and a pass with nothing to do changes nothing |
| Sweeper.SecondPassIsIdle | services/billing/internal/expiry/sweeper.go:31-33 | a second pass at the same instant stages nothing |
| Sweeper.RenewalBeforeLockIsSpared | services/billing/internal/expiry/sweeper.go:45-54 | a renewal that gets in between the listing and the lock is spared by the pass |
| Sweeper.StatusAdvances | services/billing/internal/expiry/sweeper.go:73-85 | with one clock, between credits the period stands and the status only advances |
| Sweeper.SweepGoesBack | services/billing/internal/expiry/sweeper.go:73-85 | one sweep lowers the status exactly when it finds an expired schedule and its clock is inside the grace |
| Sweeper.GoesBackExactly | services/billing/internal/expiry/sweeper.go:43-57 | for any credits and sweeps on any clocks, the status goes back if and only if a sweep inside the grace follows one past it with no credit between |
| Sweeper.SkewedSweepersGoBack | services/billing/internal/expiry/sweeper.go:43-57 | the smallest such history |
| Intents.EqualBoundsEqualFields | services/billing/internal/httpapi/handlers.go:325-329 | equal digests mean equal parameters when only the user id may hold a separator |
| Intents.SeparatorsCollide | services/billing/internal/httpapi/handlers.go:325-329 | for all fields: what a currency with separators gains a user id can lose, and the digest stays |
| Intents.CollidingRequestIsAnswered | services/billing/internal/httpapi/handlers.go:256-300 | a run in which another user with a currency no price list has is answered with the first request's invoice |
| Intents.PlayIsOrderly | services/billing/internal/httpapi/handlers.go:256-380 | every run of concurrent requests keeps the intent invariant |
| Intents.OneCreatePerKey | services/billing/internal/httpapi/handlers.go:346-363 | the gateway is asked to create at most once per key |
| Intents.TermsNeverChange | services/billing/internal/store/postgres.go:107-166 | no run changes what a key is bound to |
| Intents.AnswersMatchTheKey | services/billing/internal/httpapi/handlers.go:289-300 | every success names the reserved order and provider and is stored; it asked for what the key is bound to if and only if its currency holds no separator |
| Intents.PlainStoreKeepsTheBinding | services/billing/internal/store/schema.sql:32-43 | on a store whose user ids hold no separator every success asked for exactly what its key is bound to |
| Intents.OneInvoicePerKey | services/billing/internal/httpapi/handlers.go:331-380 | with a gateway that gives one invoice for one order all successes for a key are the one stored invoice |
| Intents.AnswersAgreeExactly | services/billing/internal/httpapi/handlers.go:331-380 | the successes for a key agree in every run if and only if the gateway gives one invoice for one order |
| Intents.UnsteadyGatewayShows | services/billing/internal/httpapi/handlers.go:351-379 | any two invoices a gateway gives for one order are both answered in some run |
| Base32.QuantumRoundTrip | services/delivery/internal/channel/dns/encode.go:17-19 | five-bit and eight-bit packing undo each other for every quantum of one to five octets |
| Base32.RepackRoundTrip | services/delivery/internal/channel/dns/encode.go:17-19 | and for every octet string, with the exact symbol count |
| Base32.RoundTrip | services/delivery/internal/channel/dns/encode.go:41-52 | decoding undoes encoding in whatever case the text arrives |
| Base32.EncodeInjective | services/delivery/internal/channel/dns/encode.go:31-39 | different octets have different texts |
| DnsText.Cut | services/delivery/internal/channel/dns/encode.go:33-38 | the cutting loop yields the pieces of the limit |
| DnsText.EncodeTXT | services/delivery/internal/channel/dns/encode.go:31-39 | strings within 255 octets that decode to the blob, exactly when it is not empty |
| DnsText.TxtRoundTrip | services/delivery/internal/channel/dns/encode.go:42-52 | decoding ignores string boundaries and case |
| DnsText.QName | services/delivery/internal/channel/dns/encode.go:57-75 | fails exactly on a zone of nothing but dots |
| DnsText.KeyLabels | services/delivery/internal/channel/dns/encode.go:67-74 | key labels are within 63 octets, dot-free, and together the encoded key |
| DnsText.QNameInjective | services/delivery/internal/channel/dns/encode.go:57-75 | under one zone different keys have different names |
| DnsText.NameLength | services/delivery/internal/channel/dns/encode.go:74 | the exact length of the whole name, which nothing bounds |
| Artifact.FieldsOf | services/delivery/internal/artifact/artifact.go:64-104 | where each field of a canonical form lies and what it reads as |
| Artifact.CanonicalInjective | services/delivery/internal/artifact/artifact.go:64-104 | one buffer has at most one reading |
| Artifact.Decode | services/delivery/internal/artifact/artifact.go:112-152 | undoes the canonical encoding of version 1 and accepts nothing else |
| Artifact.CarriedIsMarshalled | services/delivery/internal/artifact/signed.go:53-76 | the wire form is exactly what marshalling writes |
| Artifact.Unmarshal | services/delivery/internal/artifact/signed.go:85-112 | undoes marshalling and accepts nothing else |
| Artifact.Open | services/delivery/internal/artifact/signed.go:117-130 | succeeds exactly when the verifier accepts the very bytes after the header on the wire |
| TextArray.QuoteArrayElem | services/telemetry/internal/store/postgres.go:183-192 | the quoting loop |
| TextArray.PqTextArray | services/telemetry/internal/store/postgres.go:169-181 | the printing loop |
| TextArray.ParseTextArray | services/telemetry/internal/store/postgres.go:196-225 | the parsing loop and its registers |
| TextArray.RoundTrip | services/telemetry/internal/store/postgres.go:169-225 | parsing a printed list drops exactly one empty last element; it gives the list back if and only if there is none |
| Carrier.UuidRoundTrip | services/delivery/internal/channel/steg/steg.go:161-185 | sixteen octets survive the UUID form |
| Carrier.BytesFromUuidForm | services/delivery/internal/channel/steg/steg.go:170-185 | drops hyphens anywhere and wants sixteen octets |
| Carrier.EmbedInjective | services/delivery/internal/channel/steg/steg.go:92-131 | documents of different blobs below the length limit differ |
| Carrier.Embed | services/delivery/internal/channel/steg/steg.go:92-131 | the ids carry the framed and padded blob in order |
| Carrier.Extract | services/delivery/internal/channel/steg/steg.go:135-159 | reads ids, frame and length, with every error case |
| Carrier.RoundTrip | services/delivery/internal/channel/steg/steg.go:90-159 | the blob comes back cut to its length modulo 2^32, so exactly the shorter ones survive |
| TokenBucket.WindowBound | packages/platform/httpguard/limit.go:58-66 | in any window of any history the admitted cost is at most burst plus rate times window |
| TokenBucket.EvictionIsInvisible | packages/platform/httpguard/limit.go:46-51 | forgetting idle buckets is invisible exactly when the burst fits into the rate over the idle time |
| Limiters.PeerLimiter.constructor | packages/platform/httpguard/limit.go:27-38 | floors at one, empty map |
| Limiters.PeerLimiter.Allow | packages/platform/httpguard/limit.go:40-69 | admits exactly when a token is left unless the map is full of recent peers; the map never exceeds its bound; every history stays honest except of peers forgotten before their bucket was full, and there are none if the burst fits into the idle gain |
| Limiters.SourceLimiter.Allow | services/telemetry/internal/ingest/ratelimit.go:67-94 | charges source and ceiling together or neither; the ceiling's history stays honest, and so does every source's except of those forgotten before their bucket was full |
| Limiters.Refill | services/telemetry/internal/ingest/ratelimit.go:96-105 | the refill computes the level |
| Limiters.Forget | services/telemetry/internal/ingest/ratelimit.go:109-115 | drops exactly the buckets idle for longer than the limit |
| Limiters.EvictKeepsBooks | services/telemetry/internal/ingest/ratelimit.go:107-115 | eviction keeps every bucket true to its history but those that were idle and short of full, of which there are none when the burst fits |
| Limiters.StripedLimiter.Allow | services/billing/internal/httpapi/ratelimit.go:38-42 | one token from the stripe of the key, whose history stays honest |
| Limiters.StandsBounded | packages/platform/httpguard/limit.go:40-69 | a key whose history is honest has its admitted cost in every window bounded by burst plus rate times window |
| PayloadCache.Cache.Get | services/subscription/internal/cache/cache.go:56-69 | hits exactly when the entry is held and the latest put is neither expired nor invalidated, and returns that put |
| PayloadCache.Cache.Put | services/subscription/internal/cache/cache.go:73-86 | records the put; evictions and sweeps only remove; the size bounds hold |
| PayloadCache.Cache.MaybeSweep | services/subscription/internal/cache/cache.go:92-104 | does nothing below the mark or the minimum; else removes exactly the dead entries and sets the mark to twice what is left |
| PayloadCache.Cache.Evict | services/subscription/internal/cache/cache.go:109-122 | frees a place by removing entries only |
| PayloadCache.Cache.InvalidateAll | services/subscription/internal/cache/cache.go:126-130 | no entry put before is returned after |
| PayloadCache.Cache.InvalidateToken | services/subscription/internal/cache/cache.go:137-146 | removes exactly the entries of the prefix |
| PayloadCache.KeysAreApart | services/subscription/internal/cache/cache.go:53 | tokens without a bar have keys and prefixes of their own |
| PayloadCache.BarsCollide | services/subscription/internal/cache/cache.go:53 | a bar can stand on either side of the boundary: for all texts two requests share a key and a prefix |
| PayloadCache.BarFreeExactly | services/subscription/internal/cache/cache.go:53 | no other bar-free token shares a key with a token, or drops its entries, if and only if it holds no bar itself |
| NotificationCursor.Bot.NotificationUsers | services/delivery/internal/botstore/postgres.go:41-100 | one call returns the next page, wraps once, and moves the cursor to its last user |
| NotificationCursor.OneRound | services/delivery/internal/botstore/postgres.go:38-40 | a round returns every user exactly once |
| NotificationCursor.NobodyStarves | services/delivery/internal/botstore/postgres.go:38-40 | from any cursor two rounds' worth of calls return the rest of the table and then all of it |
| Planner.Plan | services/orchestrator/internal/policy/policy.go:83-168 | the three passes, the sort and the cap |
| Planner.CapSideEffects | services/orchestrator/internal/policy/policy.go:209-244 | the capping loop |
| Planner.OrderedIsStableSort | services/orchestrator/internal/policy/policy.go:213-229 | the order is the stable sort by the key |
| Planner.PlanIsJustified | services/orchestrator/internal/policy/policy.go:96-165 | every side effect rests on a fresh gated block, an elapsed rotation date or an elapsed drain grace |
| Planner.BlocksAreHeeded | services/orchestrator/internal/policy/policy.go:99-134 | a fresh recommendation for a serving node is answered: rotated or replaced past the gate, degraded at most short of it |
| Planner.RotationsAreHeeded | services/orchestrator/internal/policy/policy.go:136-146 | a node past its rotation date is rotated unless a recommendation speaks about it |
| Planner.CapIsFull | services/orchestrator/internal/policy/policy.go:206-243 | as many side effects survive as the limit, at least one, admits |
| Planner.CapIsFair | services/orchestrator/internal/policy/policy.go:206-243 | every wanted action is kept or deferred, deferred only when the cap is full, and nothing of lower rank is carried out instead |
| Planner.OneActionPerNode | services/orchestrator/internal/policy/policy.go:88-94 | a payload naming each node at most once yields at most one action per node |
| Planner.OneCycleRetires | services/orchestrator/internal/policy/policy.go:148-165 | a cycle retires due unnamed nodes only, as many as the limit admits |
| Planner.BacklogIsWorkedOff | services/orchestrator/internal/policy/policy.go:148-165 | if what a plan retires is not due in the next, n due nodes are gone within n divided by the limit, rounded up, plans |
| Feedback.NodeBlocks | services/telemetry/internal/aggregate/recommend.go:74-137 | one block per reported node in order, with exactly the reported regions, all authoritative |
| Feedback.PlanFromProbes | services/telemetry/internal/aggregate/recommend.go:65-72 | a plan from these blocks has at most one action per node |
| FleetCycle.PlanFits | services/orchestrator/internal/policy/policy.go:97-165 | rotations, replacements and degradations are planned for serving nodes, retirements for draining ones |
| FleetCycle.Loop.DoRotate | services/orchestrator/internal/reconcile/reconcile.go:239-263 | verified before the next date is set; a failure costs at most that node |
| FleetCycle.Loop.DoReplace | services/orchestrator/internal/reconcile/reconcile.go:265-297 | the old pair drains only beside an active replacement; capacity never falls |
| FleetCycle.Loop.DoRetire | services/orchestrator/internal/reconcile/reconcile.go:299-313 | a success leaves the node retired exactly if the loop could read the registry or the script had reached it; costs no serving entry but that of a draining exit |
| FleetCycle.Loop.Cycle | services/orchestrator/internal/reconcile/reconcile.go:105-159 | a cycle executes at most the limit, stops at the first failure, and ends with no fewer serving entries, less one after a failure and one for each teardown of a draining exit whose entry serves; a success has completed its plan |
| FleetCycle.TeardownCostsExactly | infra/scripts/node_down.sh:60-82 | a teardown can cost a serving entry exactly when it is of a draining exit whose entry serves |
| FleetCycle.RetiredExactly | services/orchestrator/internal/reconcile/reconcile.go:285-313 | after a successful cycle a node it was to retire is retired exactly if the plan does not replace its other half |
| FleetCycle.RetirementTakenBack | services/orchestrator/internal/reconcile/reconcile.go:285-332 | an input for which every successful cycle ends with a node it retired draining again |
| FleetCycle.CycleRemoves | services/orchestrator/internal/reconcile/reconcile.go:147-158 | what a successful cycle retired is not due in the next, and what is due then and did not become due meanwhile was due before |
| FleetCycle.FleetIsWorkedOff | services/orchestrator/internal/reconcile/reconcile.go:147-158 | over successive successful cycles in which no node becomes due, the number of due nodes falls by the limit in each until none is left |
| FleetCycle.RetiredOrDue | services/orchestrator/internal/policy/policy.go:148-165 | on a clock that does not go back, a due node that no block names and whose other half is not replaced is retired by the cycle or still due in the next |
| FleetCycle.BacklogIsRetired | services/orchestrator/internal/reconcile/reconcile.go:147-158 | so after n divided by the limit, rounded up, such cycles every one of n due nodes that stays so is retired |
| Aggregation.VoicesAreWorst | services/telemetry/internal/aggregate/aggregator.go:48-57 | a source is heard once, by the worst it sent |
| Aggregation.TallyVoices | services/telemetry/internal/aggregate/aggregator.go:173-186 | the counting loop |
| Aggregation.TallyAddsUp | services/telemetry/internal/aggregate/aggregator.go:133-139 | blocked, degraded and ok sources add up to the distinct ones |
| Aggregation.AggregateOrderFree | services/telemetry/internal/aggregate/aggregator.go:59-62 | a bucket depends only on the multiset of signals |
| Aggregation.FloodMovesOnePerSource | services/telemetry/internal/aggregate/detector.go:9-19 | any number of signals from n sources move each count by at most n |
| Aggregation.VerdictMeans | services/telemetry/internal/aggregate/detector.go:20-49 | dead and degraded in whole numbers of sources, both directions |
| Aggregation.LiveTrafficProtects | services/telemetry/internal/aggregate/detector.go:17-19 | while enough honest sources succeed no number of reports from the liars kills a transport |
| Aggregation.DeadNeedsSources | services/telemetry/internal/aggregate/detector.go:20-37 | a dead verdict needs the honest sources plus the liars to reach both floors |
| Aggregation.Compute | services/telemetry/internal/aggregate/aggregator.go:62-161 | a bucket for exactly the keys heard in the window, each with its aggregate |
| Revisions.SortCopy | packages/contracts/reality_users.go:82-90 | a sorted permutation |
| Revisions.SortedIsUnique | packages/contracts/reality_users.go:76-81 | sorting is canonical |
| Revisions.PreimageInjective | packages/contracts/reality_users.go:91-102 | length-prefixed fields never collide |
| Revisions.Revision | packages/contracts/reality_users.go:82-103 | hashes the fields of a sorted copy |
| Revisions.RevisionsAgree | packages/contracts/reality_users.go:76-81 | revisions agree exactly when the lists hold the same users equally often |
| Admission.EligibleAccessUsers | services/control-plane/internal/adapters/memory/launch.go:84-113 | lists exactly the entitled users, with the longest lease in the future that outlives nobody's access; fails exactly on an entitled user without password |
| Admission.LeaseIsHonoured | services/control-plane/internal/adapters/memory/launch.go:99-109 | everyone listed stays entitled until the lease ends |
| Admission.DistinctEnabledTransportTypes | packages/contracts/reality_users.go:66-74 | counts distinct kinds of enabled transport |
| Admission.EligibleRealityUsers | services/control-plane/internal/adapters/memory/memory.go:450-476 | lists exactly the entitled users with their REALITY credentials |
| Admission.CurrentRevision | services/control-plane/internal/adapters/memory/memory.go:546-562 | the one revision that is up to date; fails exactly on an entitled user without password |
| Admission.Nodes.Activate | services/control-plane/internal/adapters/memory/memory.go:515-567 | activates an entry only while provisioning, with two kinds of transport, an active paired exit and an up-to-date list, an exit only with pairing and evidence; refuses only a node that fails one of these, and changes nothing then |
| Admission.GateMeansSameUsers | services/control-plane/internal/adapters/memory/memory.go:546-562 | passing the revision check means the synced list is the current one |
| Admission.GateMeansEligibleUsers | services/control-plane/internal/adapters/memory/memory.go:546-562 | a revision is up to date if and only if the list it was computed from holds the credentials of exactly the users entitled now, each as often |

## Left out

- Per-user locks are not modelled: the theorems of the protocol hold for every interleaving, so also for the fewer the locks allow.
- The legacy activation path (`Activate`, `UpsertSchedule`) changes a schedule without staging a delivery and is not part of the runs.
- The claim's activation marker is never set on the modelled path, which the invariant proves, so the branch of recovery that only flips the status is not reached.
- In memory the leases of outbox rows share the claims' map under a key prefix; here they are a map of their own. Outbox keys are pairs instead of formatted strings.
- The in-memory `CompleteInvoiceCreate` overwrites the invoice row; the production store's write-once insert is modelled. The production store settles the invoice again when a delivery is completed twice; the in-memory behaviour is modelled.
- A failed completion for an outbox row whose invoice does not exist leaves the row marked in the in-memory store and rolls back in the production store; the protocol takes the rollback, and no reachable state has such a row.
- MemoryStore.Memory.LeaseBillingDeliveries: leaves ties between equal creation times open, where the source orders outbox rows by id.
- Calls that fail for transport reasons appear as tasks that stop; error texts, logs and the report's stage counters are not modelled.
- Reconcile.Deployment.Reconcile: that every claim stuck at the start ends settled is promised only among quiet bystanders, who write no verdict over a claimed or settled invoice, stamp no claim inside the recovery threshold and take none of the pass's leases; cancellation of the pass is not modelled.
- ControlPlane.Subscriptions.Ensure: takes the call as one step; Registry.EnsureInStepsIsAtomic relates the steps to it.
- Poller.CheckLeased: the processing of a positive between the cleared marker and the release is that of the protocol and not repeated here.
- PollSweep assumes one clock, a chain that only gains, lease holders acting inside their lease (a late release is allowed), and at least one required confirmation; RenewPollLease is not used by the poller.
- Sweeper.RunOnce: of what other tasks do between the locks only what it leaves of the listed schedules is modelled.
- HTTP plumbing, authentication, rate limiting of requests and price configuration around invoice creation are parameters.
- Base32.Decode: rejects the text lengths no encoder produces; the lenience of the standard library's decoder towards them, the carriage returns and line feeds it strips, and letters outside ASCII that map to ASCII, are not part of this model.
- JSON is not modelled: the cover document is a record, and the access revision's JSON preimage is replaced by the length-prefixed one, assuming JSON separates lists of well-formed strings.
- Signatures, hashes, random ids and the network are parameters or fresh values; text conversion of times and reasons is left out.
- Floating-point rounding: token counts and shares are reals; the averages of the rollup and its per-type counters are left out.
- FleetCycle.BacklogIsRetired: assumes that no node becomes due meanwhile and that nobody else writes the registry between the cycles; a node that blocks keep naming, or whose other half is replaced, is not promised to retire.
- FleetCycle assumes that scripts touch only the pair of the node they are about, that a rotation refuses an exit and leaves a draining or retired one alone, that a teardown changes records only to retired, that provisioning only adds nodes, and that nobody else writes the registry during a cycle; access synchronisation and probing are left out.
- Renderers, plan filtering, region priorities, node pagination, proxy-header parsing, the web pages and the operator scripts are left out.
