# Gasless relayer: protocol, sponsorship and limits

A Dafny model of the ERC-4337 sponsorship backend and its `VerifyingPaymaster` contract. `dafny verify dfyconfig.toml`
checks every statement below.

**Relayer.** A user operation is a database row. A `submit` call reads it, estimates, broadcasts a `handleOps`
transaction, moves the row to SUBMITTED with one conditional UPDATE and enqueues a confirmation check. A check looks up
its own transaction's receipt; without one it reads the row and either gives up or marks it STUCK, rebroadcasts at the same
nonce with bumped fees, marks it SUBMITTED again and enqueues the next check. There is no lock. `RelayerProtocol` cuts
both flows at every `await`: an agent (a submit call, a queued job, a worker) is a program counter with its locals, a state
is the row table, the agents, the broadcasts and the chain, and `Step` is one event: row creation, a call, one agent's next
step, a crash between two steps (a failing RPC or database call is one), a redelivered job, a mined transaction.
Any number of agents interleave. Nobody's step is scheduled; theorems are about every finite sequence of events from the
empty state. `RelayerService` is the same backend as classes over mutable stores, each method proved equal to its step.

**What holds it together.** At most one *confirmation token* exists per operation: a queued or undecided check, or an agent
between a successful `markSubmitted` and its `queue.add`. While a token is live the row is SUBMITTED under the token's own
hash. `RelayerInvariant` proves this inductively; `RelayerAudit` counts history entries, wins, takeovers and broadcasts;
`RelayerLineage`, `RelayerBaton` and `RelayerRanks` trace every broadcast back to a submit call; `RelayerProgress` bounds
every run; `RelayerTheorems` draws the conclusions. `RelayerResolution` proves the converse, that a token is never lost
unless an agent crashes, so crash-free runs resolve what they broadcast. `RelayerRedelivery` drops the assumption that a job
reaches one worker only. `RelayerStretches` composes runs out of stretches of single agents; with it `RelayerContest` reaches
the broadcast bound and `RelayerWitnesses` shows where a condition of a theorem is exact. `RelayerCalls` and `RelayerChecks`
say what one agent does while any others move between its steps: which broadcasts a call makes, and how the chain's answer
decides a check. `RelayerSponsored` joins the relayer to the sponsorship half.

**Sponsorship.** `Packing` is the TypeScript packing and hashing, `OnChain` the Solidity slicing and re-deriving,
`Sponsorship` joins them through the stored row: strings parsed to integers, printed in decimal, parsed again; what a string
means is its positional value (`Numbers.Denotes`), and row and struct are compared with the request's own strings. Bytes are
sequences of 0..255, ABI words are 32 bytes big-endian, every range check of the encoder is explicit. keccak, the signer and
`ECDSA.recover` are function parameters, so statements hold for all of them; where injectivity matters the conclusion reads
"equal, or here is a keccak collision", which says something about the real 32-byte hash as well.

**Quota, policy, rate limit.** `Quota` interleaves the upsert, the conditional increment, signing and the unique insert of
any number of `sponsor` requests that may stop anywhere; its theorems count the requests of one wallet, policy and UTC day.
`Policies` is the policy choice over any table and any order the
database may return equal timestamps in. `RateLimit` is the Redis counter script over timed traces of hits, and the guard
over requests through both tiers that interleave at the await between the two.

Four places where the code's own words and the code part ways; the model follows the code.

- `apps/api/src/modules/relayer/user-op-state-machine.service.ts:26` says two concurrent callers cannot both succeed. That
  holds of the row update (`StuckAccounting`), not of the broadcast before it: two submits can both broadcast, at different
  nonces, and both be mined. An operation is mined at most once in every run if and only if it has at most one submit call
  (`MinedOnceIffAtMostOneCall`); run by run, all broadcasts share a nonce if and only if the submit broadcasts do
  (`OneNonceIffSubmitsAgree`).
- The same file's diagram has STUCK -> CONFIRMED / FAILED edges. The guards allow them, no run takes them
  (`HistoriesAreLifecycles`).
- A rate limit of `max` per window is the fixed-window promise (`WindowAdmitsExactly`). Over an arbitrary interval of
  window length the bound is 2 max - 1, and it is attained (`SlidingBound`, `SlidingBoundIsReached`).
- `computePaymasterHash` alone does not check that the two gas limits are uint128s: the digest of one sponsorship stands for
  no other in-range one if and only if its own limits fit (`UnambiguousIffLimitsFit`). This is about the helper only: the
  configured limits are safe integers (`apps/api/src/config/env.validation.ts:67-68`).

## Model

| member | source | states |
|---|---|---|
| `UserOpStateMachine.UserOpStateMachineService.Transition` | apps/api/src/modules/relayer/user-op-state-machine.service.ts:78-93 | Succeeds exactly when the row exists in one of the `from` statuses; writes exactly the given columns, and nothing at all on conflict. |
| `UserOpStateMachine.UserOpStateMachineService.MarkSubmitted` | apps/api/src/modules/relayer/user-op-state-machine.service.ts:35-54 | Wins exactly from PENDING or STUCK; signature and gas limit change only when given, the bump count only on a resubmission; no other row moves. |
| `UserOpStateMachine.UserOpStateMachineService.MarkStuck` | apps/api/src/modules/relayer/user-op-state-machine.service.ts:56-58 | Wins exactly from SUBMITTED and changes nothing but the status. |
| `UserOpStateMachine.UserOpStateMachineService.MarkConfirmed` | apps/api/src/modules/relayer/user-op-state-machine.service.ts:60-69 | Wins exactly from SUBMITTED or STUCK and stores the receipt's block and gas. |
| `UserOpStateMachine.UserOpStateMachineService.MarkFailed` | apps/api/src/modules/relayer/user-op-state-machine.service.ts:71-76 | Wins exactly from SUBMITTED or STUCK and stores the reason. |
| `RelayerService.RelayerBackend.SubmitMark` | apps/api/src/modules/relayer/relayer.service.ts:96-103 | Going through the state machine, the code after the broadcast is the protocol's marking step, won or lost. |
| `RelayerService.RelayerBackend.AdvanceSubmit` | apps/api/src/modules/relayer/relayer.service.ts:52-110 | Whatever await a submit call stands at, running the code to the next one is one protocol step; `RelayerCalls` says over events and rows what those steps do. |
| `RelayerService.RelayerBackend.Fail` | apps/api/src/modules/relayer/queue/confirmation-check.processor.ts:61-78 | Both `markFailed` sites: the row is failed with the given reason exactly when the guard lets it, and the worker stops either way. |
| `RelayerService.RelayerBackend.PrepareReplacement` | apps/api/src/modules/relayer/queue/confirmation-check.processor.ts:86-109 | Throws exactly when the gas limit or a fee column is missing or unreadable or the struct does not rebuild, a missing nonce counting as a throw too (see Left out; no run has one); otherwise nonce, gas limit, struct, signature and target are the row's own and each stored fee is bumped once. |
| `RelayerInvariant.ReplacementOfSubmitted` | apps/api/src/modules/relayer/queue/confirmation-check.processor.ts:86-109 | Round trip through the row: what is built from the columns a submit wrote is the very transaction that submit broadcast, each fee bumped once. |
| `RelayerService.RelayerBackend.Stick` | apps/api/src/modules/relayer/queue/confirmation-check.processor.ts:81-109 | Marks STUCK first and builds the replacement from the row it read earlier, not from the current one. |
| `RelayerService.RelayerBackend.Resubmit` | apps/api/src/modules/relayer/queue/confirmation-check.processor.ts:111-117 | Resubmission through the state machine is the protocol's remarking step, won or lost. |
| `RelayerService.RelayerBackend.AdvanceCheck` | apps/api/src/modules/relayer/queue/confirmation-check.processor.ts:46-125 | Whatever await a worker stands at, running the code to the next one is one protocol step; `RelayerChecks` says over rows and chain what those steps do. |
| `RelayerService.RelayerBackend.Play` | apps/api/src/modules/relayer/relayer.service.ts:52-114 | Any schedule of the backend's methods is a run of the protocol and keeps the invariant, so every theorem below is about the mutable code. |
| `RelayerCalls.SubmitBroadcastsAreQuoted` | apps/api/src/modules/relayer/relayer.service.ts:52-94 | In every run whatsoever, each submit broadcast belongs to a call whose first step read the row while PENDING; it carries that row's struct under the call's own signature, and the nonce, both fees and 120% of the gas its second step was quoted. |
| `RelayerCalls.SubmitConduct` | apps/api/src/modules/relayer/relayer.service.ts:52-94 | Whoever moves between its steps, a call broadcasts if and only if it read its row PENDING with a struct that builds, and then exactly what it was quoted; otherwise it ends not found, not PENDING with the status it read, or with the build error. |
| `RelayerCalls.LateCallNeverBroadcasts` | apps/api/src/modules/relayer/relayer.service.ts:57-61 | A call made after its row left PENDING never broadcasts, whatever else the run does. |
| `RelayerCalls.LateCallIsRefused` | apps/api/src/modules/relayer/relayer.service.ts:57-61 | Such a call ends with a conflict naming the row's status as soon as it reads. |
| `RelayerChecks.ReceiptDecides` | apps/api/src/modules/relayer/queue/confirmation-check.processor.ts:50-65 | A check whose lookup finds its transaction mined settles the row with its next step, whoever moves in between: CONFIRMED with that block and gas if the receipt says success, FAILED as reverted if not. |
| `RelayerChecks.NoReceiptDecides` | apps/api/src/modules/relayer/queue/confirmation-check.processor.ts:54-109 | Otherwise it reads the row, which nobody changes until it marks it: FAILED if the bumps it read are used up; else STUCK, and it then broadcasts its own transaction at the same nonce with each fee bumped once. |
| `RelayerChecks.EveryReceiptSettlesSomeRun` | apps/api/src/modules/relayer/queue/confirmation-check.processor.ts:50-65 | For every receipt some run with one call ends with the row CONFIRMED with it, or FAILED as reverted. |
| `RelayerInvariant.RowStep` | apps/api/src/modules/relayer/user-op-state-machine.service.ts:83-86 | The heart of the inductive step: rewriting a row keeps the invariant when the token's holder gives it up, or when nobody holds one and the agent takes it for the hash it stores; `RunKeepsCore` shows no other rewrite happens. |
| `RelayerInvariant.RunKeepsCore` | apps/api/src/modules/relayer/queue/confirmation-check.processor.ts:46-124 | The token invariant, row invariant and every agent's local facts hold in every reachable state. |
| `RelayerTheorems.TokenSafety` | apps/api/src/modules/relayer/queue/confirmation-check.processor.ts:46-124 | At most one token per operation; its row is SUBMITTED under its own hash, hence none while PENDING or STUCK; no check ever loses its conditional update, misses its row or fails to rebuild the transaction. |
| `RelayerTheorems.BumpBudget` | apps/api/src/modules/relayer/queue/confirmation-check.processor.ts:70-81 | bumpCount never exceeds MAX_GAS_BUMP_ATTEMPTS and is below it while STUCK, though it is read and incremented steps apart. |
| `RelayerTheorems.FinalRowsHaveEvidence` | apps/api/src/modules/relayer/queue/confirmation-check.processor.ts:46-78 | A CONFIRMED row holds block and gas of a successful receipt of exactly its stored hash; FAILED means a reverted receipt of that hash, or a budget spent to the last bump. |
| `RelayerTheorems.RevertedNeverSucceeds` | apps/api/src/modules/relayer/queue/confirmation-check.processor.ts:50-62 | A row FAILED as reverted whose submit broadcasts agree on the nonce never has a successful handleOps mined, under any nonce. |
| `RelayerWitnesses.RevertIsFinalIffAtMostOneCall` | apps/api/src/modules/relayer/queue/confirmation-check.processor.ts:50-62 | For every number k of submit calls: no run with k calls ends FAILED as reverted with a successful handleOps mined if and only if k <= 1. |
| `RelayerWitnesses.GivenUpCanStillSucceed` | apps/api/src/modules/relayer/queue/confirmation-check.processor.ts:70-78 | For every MAX some run gives the operation up as FAILED, its budget exceeded, and then one of its transactions is mined with success. |
| `RelayerTheorems.HistoriesAreLifecycles` | apps/api/src/modules/relayer/user-op-state-machine.service.ts:21-25 | Every status history is a non-empty prefix of PENDING (SUBMITTED STUCK)* SUBMITTED (CONFIRMED or FAILED), ending in the row's status. |
| `RelayerTheorems.StuckAccounting` | apps/api/src/modules/relayer/user-op-state-machine.service.ts:25-29 | Exactly one submit wins a PENDING row; successful markStuck calls = bumpCount + takeovers of a STUCK row by a submit + one if STUCK now. |
| `RelayerTheorems.BroadcastBound` | apps/api/src/modules/relayer/queue/confirmation-check.processor.ts:73-124 | With n >= 1 submit calls at most MAX + 2n - 1 broadcasts and 2 MAX + 2n + 1 history entries, with none no broadcast. |
| `RelayerContest.BroadcastBoundIsReached` | apps/api/src/modules/relayer/queue/confirmation-check.processor.ts:73-124 | For every MAX > 0 and every n >= 1 some run with n submit calls makes MAX + 2n - 1 broadcasts, pairwise different transactions whenever the bump percentage is positive: n racing submits, n - 1 checks overtaken while STUCK, MAX bumps (for MAX = 0, n = 1 does). |
| `RelayerProgress.EveryRunIsFinite` | apps/api/src/modules/relayer/queue/confirmation-check.processor.ts:46-125 | With n submit calls in all, no schedule takes more than 7 (MAX + 2) n steps of live agents, and at most (MAX + 2) n agents ever exist. |
| `RelayerTheorems.ReplacementsAreBumps` | apps/api/src/modules/relayer/queue/confirmation-check.processor.ts:86-109 | In every run each rebroadcast replaces a transaction another agent did broadcast for the operation, keeps its nonce, bumps each fee once, never lowers it, and raises each exactly when its bump is worth a wei. |
| `RelayerTheorems.BroadcastProvenance` | apps/api/src/modules/relayer/queue/confirmation-check.processor.ts:86-117 | In every run each broadcast carries the stored struct, and is a submit broadcast's nonce and fees bumped at most MAX times with the gas limit and signature of a submit broadcast. |
| `RelayerTheorems.FeesAreBounded` | apps/api/src/modules/relayer/queue/confirmation-check.processor.ts:86-108 | Both fees of every broadcast lie between some submit's fees and those grown by (1 + p/100)^MAX; priority <= max is inherited from that submit. |
| `RelayerTheorems.SoleSubmitOneTransaction` | apps/api/src/modules/relayer/queue/confirmation-check.processor.ts:91-117 | With at most one submit broadcast, all broadcasts of the run agree on struct, signature, target, nonce and gas limit: they differ in fees only. |
| `RelayerRanks.SoleSubmitFeeSequence` | apps/api/src/modules/relayer/queue/confirmation-check.processor.ts:86-117 | With one submit broadcast there are at most MAX + 1 broadcasts, numbered 0, 1, 2, ... by their agents' order; the k-th is the submitted transaction bumped exactly k times, and outbids all before it wherever a bump is worth a wei. |
| `RelayerTheorems.MinedUnderOwnNonce` | apps/api/src/modules/relayer/queue/confirmation-check.processor.ts:101 | What the chain mined under a relayer nonce is a transaction some agent broadcast, at that nonce. |
| `RelayerTheorems.OneNonceIffSubmitsAgree` | apps/api/src/modules/relayer/queue/confirmation-check.processor.ts:101 | All broadcasts of an operation share a relayer nonce if and only if its submit broadcasts do. |
| `RelayerTheorems.AgreeingSubmitsMineOnce` | apps/api/src/modules/relayer/queue/confirmation-check.processor.ts:91-117 | When its submit broadcasts agree on the nonce (one broadcast does), at most one handleOps transaction of the operation is ever mined. |
| `RelayerWitnesses.MinedOnceIffAtMostOneCall` | apps/api/src/modules/relayer/relayer.service.ts:52-103 | For every number k of submit calls: no run with k calls mines the operation under two nonces if and only if k <= 1. |
| `RelayerTheorems.SoleSubmitStoredFees` | apps/api/src/modules/relayer/queue/confirmation-check.processor.ts:86-117 | With one submit broadcast the row stores its nonce and its fees floor-bumped exactly bumpCount times, within the two-sided rounding bound. |
| `RelayerWitnesses.TwoSubmitsCanMineTwice` | apps/api/src/modules/relayer/relayer.service.ts:57-103 | For any two nonces some run with two submit calls mines the operation at both: why the one-nonce theorems need their hypothesis. |
| `RelayerWitnesses.ManySubmitsCanMineTwice` | apps/api/src/modules/relayer/relayer.service.ts:57-103 | For any k >= 2 and any two nonces some run with k submit calls mines the operation at both. |
| `RelayerRedelivery.BumpsWithinRedeliveries` | apps/api/src/modules/relayer/queue/confirmation-check.processor.ts:70-81 | In every run whatsoever, with any number r of redelivered jobs, bumpCount is at most MAX + r; `BumpBudget` is r = 0. |
| `RelayerRedelivery.RedeliveryOverrunsBudget` | apps/api/src/modules/relayer/queue/confirmation-check.processor.ts:70-81 | For MAX > 0 and every r some run with exactly r redeliveries reaches MAX + r: workers of one job read the same bumpCount, and each of their markStuck calls finds the row SUBMITTED. |
| `RelayerRedelivery.BudgetHoldsIffNoRedelivery` | apps/api/src/modules/relayer/queue/confirmation-check.processor.ts:70-81 | For MAX > 0: every run with r redeliveries keeps to MAX_GAS_BUMP_ATTEMPTS if and only if r = 0. |
| `RelayerResolution.TokenIsNeverLost` | apps/api/src/modules/relayer/queue/confirmation-check.processor.ts:46-125 | In every crash-free run a SUBMITTED row's token is held, a STUCK row's resubmission is still to come, and whoever broadcast for a PENDING row is about to mark it. |
| `RelayerResolution.CrashFreeRunsResolve` | apps/api/src/modules/relayer/queue/confirmation-check.processor.ts:46-125 | When all agents of a crash-free run are done, every row is CONFIRMED or FAILED if some submit call broadcast it, and PENDING otherwise. |
| `RelayerResolution.ComesToRest` | apps/api/src/modules/relayer/queue/confirmation-check.processor.ts:46-125 | From every state of every run, letting the agents that are left take their steps ends with all agents done. |
| `RelayerResolution.AlwaysResolvedIffNoCrash` | apps/api/src/modules/relayer/relayer.service.ts:96-110 | For every number k of crashes: every run with k crashes that comes to rest leaves the row resolved if and only if k = 0 (a call killed between its mark and its `queue.add` strands the row). |
| `GasBump.BumpNGrows` | apps/api/src/modules/relayer/queue/confirmation-check.processor.ts:86-89 | Repeated bumps are non-decreasing, and strictly increasing once fee * percent >= 100. |
| `GasBump.BumpNKeepsOrder` | apps/api/src/modules/relayer/queue/confirmation-check.processor.ts:86-89 | priority <= max (EIP-1559, section "Specification") survives any number of bumps. |
| `GasBump.BumpNBounds` | apps/api/src/modules/relayer/queue/confirmation-check.processor.ts:86-89 | After n floor-rounded bumps of f by p percent, 100^n fee_n <= f (100+p)^n and p f (100+p)^n - 99 ((100+p)^n - 100^n) <= p 100^n fee_n. |
| `Packing.PackIsTwoHalves` | apps/api/src/modules/paymaster/signing/packed-user-op.util.ts:15-21 | Succeeds exactly on two uint128s, and shift-or then big-endian is the two 16-byte halves side by side. |
| `Packing.PackInjective` | apps/api/src/modules/paymaster/signing/packed-user-op.util.ts:15-21 | Different pairs never share a packed word. |
| `Packing.PackSurjective` | apps/api/src/modules/paymaster/signing/packed-user-op.util.ts:15-21 | Every 32-byte word is some pair's packing. |
| `Packing.AbiEncodeInjective` | apps/api/src/modules/paymaster/signing/packed-user-op.util.ts:86-115 | Encodings of equally many static words determine the words. |
| `Packing.AbiWordAt` | apps/api/src/modules/paymaster/signing/packed-user-op.util.ts:86-115 | Word i of an encoding stands at byte 32 i. |
| `Packing.AddressIsUint160` | apps/api/src/modules/paymaster/signing/packed-user-op.util.ts:86-115 | An address is encoded as the uint160 its bytes are. |
| `Packing.PreimageInjective` | apps/api/src/modules/paymaster/signing/packed-user-op.util.ts:71-117 | The 12-word preimage determines every loose field, both paymaster gas limits, chain, paymaster and window; initCode and callData through their digests. |
| `Packing.EqualDigestsEqualSponsorships` | apps/api/src/modules/paymaster/signing/packed-user-op.util.ts:71-117 | Equal digests mean equal sponsorships, or keccak collides on one of three named pairs. |
| `Packing.OversizedLimitsAlias` | apps/api/src/modules/paymaster/signing/packed-user-op.util.ts:82-83 | Every sponsorship that has a digest and limits that are no uint128s shares its whole preimage with a different, in-range one, which differs in the two limits alone. |
| `Packing.UnambiguousIffLimitsFit` | apps/api/src/modules/paymaster/signing/packed-user-op.util.ts:71-117 | For every sponsorship that has a digest: each in-range sponsorship with that digest is the same one, or keccak collides, if and only if its own limits are uint128s. |
| `Numbers.DecimalRoundTrip` | apps/api/src/modules/paymaster/paymaster.service.ts:54-61 | Parsing the decimal print of any bigint gives it back. |
| `Numbers.BigIntReadsNumerals` | apps/api/src/modules/paymaster/paymaster.service.ts:32-42 | A string is read as n exactly when it is a decimal, or 0x-hexadecimal, numeral of positional value n, letters of either case alike. |
| `Numbers.ByteAt` | apps/api/src/modules/paymaster/signing/packed-user-op.util.ts:15-21 | Byte i of the big-endian form of a number is its digit of weight 256^(size - 1 - i). |
| `Sponsorship.SignSucceedsIffInRange` | apps/api/src/modules/paymaster/signing/paymaster-signing.service.ts:32-73 | `sign` returns exactly when every value fits its Solidity type, the window's end included. |
| `Sponsorship.SponsorSucceedsIffSponsorable` | apps/api/src/modules/paymaster/paymaster.service.ts:32-68 | The row is built exactly when every amount string of the request is a numeral of a number that fits its Solidity type, and the configured limits, chain and window fit theirs. |
| `Sponsorship.SponsoredRowIsRequest` | apps/api/src/modules/paymaster/paymaster.service.ts:32-68 | Sender, initCode and callData of the row are the request's, each of the six amount columns denotes the number its own request string denotes, chain and EntryPoint are the configured ones, and the window is 0 to now + validSeconds. |
| `Sponsorship.ParseInvertsAssembly` | contracts/src/VerifyingPaymaster.sol:111-118 | For all 48-bit windows and all signatures the contract's parser inverts the assembly; the header is 52 bytes and bytes [20:52] read back as the integer that was hashed. |
| `Sponsorship.PrefixesAgree` | apps/api/src/modules/paymaster/signing/paymaster-signing.service.ts:57 | The off-chain message prefix, length in decimal, and the contract's 32-byte prefix (EIP-191, version 0x45) give one digest. |
| `Sponsorship.RebuildReadsBack` | apps/api/src/modules/relayer/build-packed-user-op.util.ts:24-42 | The struct rebuilt from the decimal columns is the struct that was sponsored. |
| `Sponsorship.SponsoredOpRebuilds` | apps/api/src/modules/relayer/build-packed-user-op.util.ts:24-42 | For every sponsorable request the struct rebuilt from its row is the request field by field (verification gas and priority fee in the high halves, each the number its string denotes), its on-chain preimage is the signed one and its EntryPoint hash (ERC-4337, section "EntryPoint definition") is the row's userOpHash. |
| `Sponsorship.ValidateDecidesBySigner` | contracts/src/VerifyingPaymaster.sol:85-109 | After any history of signer rotations the contract does not revert on the rebuilt operation, returns the window 0 to now + validSeconds, and reports a signature failure exactly when the backend's address is not the current signer. |
| `RelayerSponsored.BroadcastsValidate` | apps/api/src/modules/relayer/build-packed-user-op.util.ts:24-42 | In every run every broadcast of a sponsored operation, replacements included, goes to the configured EntryPoint with the struct the client asked for, which hashes to the row's userOpHash and which the contract accepts, from 0 to now + validSeconds, exactly when the backend's address is the current signer. |
| `Sponsorship.AcceptedIsWhatWasSigned` | contracts/src/VerifyingPaymaster.sol:52-109 | If the signer signed one digest only, any operation accepted with that signature has 180 or 181 bytes of paymaster data and carries exactly the signed values, or keccak collides on one of two named pairs. |
| `OnChain.SignerIsNewestAccepted` | contracts/src/VerifyingPaymaster.sol:42-46 | Over any history of calls the signer is the newest accepted rotation, or the constructor's when none was, and never zero. |
| `OnChain.Deploy` | contracts/src/VerifyingPaymaster.sol:36-39 | Deployment reverts exactly on the zero signer. |
| `OnChain.VerifyingPaymaster.SetVerifyingSigner` | contracts/src/VerifyingPaymaster.sol:42-46 | Takes effect exactly for the owner and a non-zero signer; emits the old and new signer, and the emitted pairs chain from deployment to the current signer. |
| `OnChain.VerifyingPaymaster.Validate` | contracts/src/VerifyingPaymaster.sol:85-109 | Validation depends on the stored signer only through the rotation history. |
| `Quota.SameKeyIff` | apps/api/src/modules/paymaster/policy/policy.service.ts:7-9 | Two requests use one counter if and only if their policies are equal, their wallets are equal up to letter case, and both instants lie in one interval [86400000 d, 86400000 (d + 1)). |
| `Quota.SponsorBackend.CheckAndConsumeQuota` | apps/api/src/modules/paymaster/policy/policy.service.ts:71-94 | Uninterrupted, the two statements let the request through exactly when its wallet has used less than the policy's daily quota on that UTC day, and then count one use for exactly the requests of that wallet in any spelling, that policy and that day. |
| `Quota.SponsorBackend.Execute` | apps/api/src/modules/paymaster/paymaster.service.ts:22-81 | The mutable stores follow the interleaved protocol event by event. |
| `Quota.RunKeepsInv` | apps/api/src/modules/paymaster/policy/policy.service.ts:75-93 | In every reachable state each counter equals the grants under its key and each row belongs to the request that inserted it. |
| `Quota.GrantsAreMinOfAttemptsAndQuota` | apps/api/src/modules/paymaster/policy/policy.service.ts:71-94 | For one wallet, policy and UTC day whose requests all read the daily quota q: after n completed conditional updates exactly min(n, q) of those requests were granted, and the stored counter says so, under any interleaving. |
| `Quota.GrantsWithinQuota` | apps/api/src/modules/paymaster/policy/policy.service.ts:81-89 | The counter of a wallet, policy and UTC day never exceeds the largest daily quota its requests read. |
| `Quota.SponsorshipConservation` | apps/api/src/modules/paymaster/paymaster.service.ts:22-81 | The counter of a wallet, policy and UTC day always equals the rows inserted for its requests + those granted and in flight + those granted that aborted. |
| `Quota.RowsWithinQuota` | apps/api/src/modules/paymaster/paymaster.service.ts:47-68 | Rows sponsored for one wallet under one policy in one UTC day never exceed the daily quota. |
| `Quota.QuotaCanBeUsedUp` | apps/api/src/modules/paymaster/paymaster.service.ts:22-81 | And they reach it: n requests with different hashes, one after another, leave exactly min(n, quota) rows. |
| `Quota.InsertSucceedsUnlessTaken` | apps/api/src/modules/paymaster/paymaster.service.ts:47-79 | In every run a signed request that goes on gets its row, unless another request was already sponsored under its hash; then it ends as a duplicate and nothing is inserted. |
| `Quota.HashesAreUnique` | apps/api/src/modules/paymaster/paymaster.service.ts:69-79 | No two successful requests share a userOpHash. |
| `Policies.ChoiceIsDeclarative` | apps/api/src/modules/paymaster/policy/policy.service.ts:24-64 | Over any table and tie order: refused as uncovered when no active policy covers the target; otherwise the oldest policy stored for the target in lower case, else the oldest wildcard, decides, and sponsors exactly when its list is empty or has the selector letter by letter up to ASCII case. |
| `Policies.FoldedEqualIffSameLetters` | apps/api/src/modules/paymaster/policy/policy.service.ts:53 | Comparing lower-cased strings is comparing letter by letter, A to Z against a to z. |
| `Policies.ScopedRefusalIsFinal` | apps/api/src/modules/paymaster/policy/policy.service.ts:41-61 | A selector that no policy stored for the contract lists, in any case, is refused, whatever the wildcards allow. |
| `Policies.ScopedPoliciesAreIndependent` | apps/api/src/modules/paymaster/policy/policy.service.ts:29-39 | Adding, editing or deactivating a policy scoped to one contract changes no decision for another. |
| `Policies.MixedCaseNeverDecides` | apps/api/src/modules/paymaster/policy/policy.service.ts:33 | A policy whose stored contract has an upper-case letter never decides a request. |
| `RateLimit.WindowAdmitsExactly` | apps/api/src/common/guards/rate-limit.guard.ts:20-26 | A window opened by a hit admits exactly min(hits, max), refused hits never extending it. |
| `RateLimit.AllowanceHolds` | apps/api/src/common/guards/rate-limit.guard.ts:20-26 | From any counter the script can leave behind, an interval of window length admits at most what that counter still allows. |
| `RateLimit.SlidingBound` | apps/api/src/common/guards/rate-limit.guard.ts:16-26 | From any counter the script can leave behind, no half-open interval of windowSeconds admits more than 2 max - 1 hits of a key. |
| `RateLimit.SlidingBoundIsReached` | apps/api/src/common/guards/rate-limit.guard.ts:16-26 | For every limit and window some trace attains 2 max - 1. |
| `RateLimit.KeysAreIndependent` | apps/api/src/common/guards/rate-limit.guard.ts:95-98 | In an interleaved trace of keys with different windows, what is admitted of one key is decided by that key's own hits. |
| `RateLimit.SlidingBoundPerKey` | apps/api/src/common/guards/rate-limit.guard.ts:95-98 | The sliding bound for every key of every interleaved trace, other keys' windows being what they may. |
| `RateLimit.GuardAdmitsWithinBound` | apps/api/src/common/guards/rate-limit.guard.ts:49-98 | Over any interleaving of requests, each awaiting its address's counter and then, at its own later time, its wallet's, the requests let through for one address, or for one wallet in any spelling, number at most 2 max - 1 in any half-open interval of that tier's window. |
| `RateLimit.VisitsWithinHits` | apps/api/src/common/guards/rate-limit.guard.ts:49-74 | However requests interleave: in any interval, the requests admitted on a key together with those that hold an admitted IP hit of it and still wait number at most the admitted hits of the key, in the trace of hits the guard made. |
| `RateLimit.EveryCounterExpires` | apps/api/src/common/guards/rate-limit.guard.ts:20-26 | No counter the script wrote, in a trace of any mix of windows, is ever without an expiry. |
| `RateLimit.TiersAreSeparate` | apps/api/src/common/guards/rate-limit.guard.ts:54-67 | No IP key equals any wallet key. |
| `RateLimit.IpKeysAgreeIff` | apps/api/src/common/guards/rate-limit.guard.ts:54 | Two addresses share a counter exactly when they are equal. |
| `RateLimit.WalletKeysAgreeIff` | apps/api/src/common/guards/rate-limit.guard.ts:67 | Two wallets share a counter exactly when they are equal up to letter case. |
| `RateLimit.LimitsExactlyTheNamedWallet` | apps/api/src/common/guards/rate-limit.guard.ts:59-112 | The guard limits exactly the non-empty string that the body nests under the field names whose dotted form is the route's path; a missing field, a value on the way that is no object, or anything but a string at the end limits nothing. |
| `RateLimit.SplitUndoesJoin` | apps/api/src/common/guards/rate-limit.guard.ts:102 | Splitting at dots gives back any non-empty list of names without dots; `JoinUndoesSplit` is the converse. |
| `RateLimit.RateLimitGuard.Eval` | apps/api/src/common/guards/rate-limit.guard.ts:20-26 | INCR then conditional EXPIRE is the atomic script on this key and leaves other keys alone. |
| `RateLimit.RateLimitGuard.CanActivate` | apps/api/src/common/guards/rate-limit.guard.ts:49-74 | Admits exactly when every applicable tier has room, leaving the counters of the hits it made: an IP refusal spends no wallet hit, a wallet refusal has spent the IP one. Uninterrupted, it is the request's two steps of the interleavings above. |

## Left out

- RelayerService.RelayerBackend.PrepareReplacement: a null `relayerNonce` counts as a throw, while the source passes it on unchecked (`confirmation-check.processor.ts:101`); `TokenSafety` shows every row a check rebuilds has its columns.
- Redelivery by BullMQ: theorems about runs assume no job reaches two workers (`AtMostOnce`), except `BumpsWithinRedeliveries`, which is about every run.
- Delay and timing of jobs, and fairness: nothing says an agent is ever scheduled; `ComesToRest` says what happens when they are.
- Rejection of a broadcast by the node (underpriced, nonce too low) and reorganisations: a call that fails is a crash before or after the broadcast; a mined transaction stays mined.
- Distinct nonces across operations, and confirmation that the op inside a mined bundle ran: the relayer decides by the outer receipt alone, of its current hash alone.
- Transaction hashing: a hash is a symbolic constructor, so equal hashes mean equal transactions.
- The last read and HTTP response of `submit`, `getStatus`, controllers, DTO regexes, admin, health and audit endpoints: copies without state.
- The spelling of hex (case, odd length, EIP-55 checksum refusal of mixed-case addresses by viem): addresses and blobs are bytes.
- Case folding beyond ASCII in `toLowerCase`: request fields are hex strings.
- keccak, ECDSA, signer backends and key parsing: function parameters.
- `_packValidationData`, EntryPoint, BasePaymaster, Ownable, stake and deposit accounting are not part of this model; validation returns the three values as a record and the caller's ownership is an input.
- Decimals and 0x-hex are the number syntaxes read; BigInt's octal, binary, sign and whitespace forms are refused here.
- A daily quota edited while requests are running, for the exact min(n, q): `GrantsWithinQuota` covers changing quotas with their largest value.
- `maxGasPerOp`: no code enforces it.
- Redis and Postgres themselves: a script and a conditional UPDATE are single steps, an expiry is the half-open interval up to its millisecond.
- Audit entries of a state (who won, who marked STUCK, the status history) are observers for the statements; no step reads them.
