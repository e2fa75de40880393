# Cairn Wallet, verified model

A Dafny model of the hard logic of Cairn Wallet, a non-custodial browser wallet for Compute Substrate (CSD): how it keeps
a verified header chain, what evidence it signs a fill on, which coins it spends, what a `.csd` name resolves to, and how
its queues and stores behave when every await can be overtaken. Nothing an outside party answers is trusted: node replies,
block bodies, name sources, the store, the clock and the order of events are inputs that range over everything.

`dafny verify dfyconfig.toml` checks the whole project.

## Layout

- `HeaderStore`, `SuffixStore`: one store transaction, coalesced writes, and what is on disk once every write has landed.
- `HeaderChain`, `ChunkAcquirer`, `LightClients`, `SpvSource`: hash links, anchored chunks and their cache, the light
  client, the session pin, and the header source that holds them together.
- `Transactions`, `Units`, `Siwc`: the transaction codec, decimal amounts, and the sign-in message with its UTF-8 bytes.
- `Blocks`, `FillScan`: binding a served block body and an author, and rebuilding the evidence for a fill.
- `HoldCounts`, `HoldExample`: the reported count of holds against an honest node's, and a chain on which it is lower.
- `CoinSelect`, `CoinVerify`, `CoinSpend`: choosing coins, proving their values under a worker pool, and every spend.
- `Names`, `NameCache`, `NameUnion`: the name replay, the confirm-time skip, the union over sources and what a send is told;
  `NameExample`: exactly when a skip is not backed.
- `Chains`, `Vault`, `History`, `Seals`: the promise chains, the account list and its vault, and the two parked record stores.
- `SendConfirm`, `DappQueue`: the review and confirm protocol, and the approval queue.

Where the source changes state, a class holds its fields and each method is one section between two awaits, proved equal to
a step function; the properties are then proved of every run of steps.

## What is assumed

- A header's hash is a function value, injective where a statement says so. In `Blocks` double SHA-256 is a free constructor:
  a hash is what it was computed from, a transaction is never read as two concatenated hashes, and nothing hashes to zero.
- Proof of work, difficulty, the time rules, signature recovery, the record parser, the name resolver and the rule that a
  fill closed an offer are function values; only their determinism is used. The resolver sorts its events, so it is a
  function of the multiset of them and of the tip. Where a skip is concerned it is also assumed to read the tip as
  `src/vendor/cairnx-spv.js:5016-5052` does: past height 46440 a name that is not reserved depends on the tip only through
  its epoch, and a lapsed lease stays lapsed (`NameCache.ByEpoch`).
- Hex text is compared in lower case; txids are hash values, and names' hints are text compared with the hash's hex.

## What the proofs found

- `mergeStoreWrites` equals its two writes in order only if no stored chunk lies between the older and the newer cut and
  outside both puts. Suffix writes always meet that (`HeaderStore.MergeIsSequential`, `SuffixStore.MergeJobs`).
- The reported count of the buyer's other holds can be lower than an honest node's: withholding the coin another's hold
  spends makes it count as the buyer's, which can push the plain count to the cap, where holds closed by the buyer's own
  fills are then taken out (`HoldExample.HidingLowersTheCount`). It is at least the honest count when no second source is
  given or the plain count is under the cap; `HoldCounts.LoweredExactly` says for which chains a node can lower it. The cap
  verdict is never looser for it (`HoldCounts.VerdictNeverLooser`).
- `selectInputs` tries the coins that are not coinbases alone before all of them, so it need not pick the largest coins, and
  it refuses where the running sum leaves the safe range. `buildSignSubmit` does not check the sum with the fee; a sum past
  the safe range selects nothing, so no such transaction is signed.
- A removal whose list deletes fail queues no vault write: the account is back at the next unlock, its lists possibly gone
  (`Vault.FailedRemovalComesBack`). A reset leaves the lists of an account the stored mirror does not name
  (`Vault.ResetLeavesUnmirrored`, `MirrorLags`).
- An unlock that has read the vault and is still deriving its key when a reset runs unlocks the wallet afterwards and writes
  the old vault back; without one a reset is final (`Vault.ResetIsFinalIff`, `UnlockRestoresVault`). Recording a row does not
  ask whether the wallet was wiped, so it then also lets old rows in (`History.UnlockAfterResetRecords`).
- The hint-set cache reads header hashes, and the tip whose epoch it files, after the proof, across awaits. If a header moved
  in between, or the tip entered the next epoch, a later skip need not be backed: the records may be gone, or the lease
  lapsed. Exactly those two things make such a skip possible (`NameExample.UnsafeExactly`, `NameCache.SkipIsBacked`).
- A comment at `src/core/history.ts:42` says `lock()` clears parked rows; the code (`src/core/wallet.ts:415-427`) keeps them,
  and so does the model.

## Model

| member | source | states |
|---|---|---|
| `HeaderStore.Store.Write` | src/core/headerstore.ts:134-150 | One store transaction: keys and head are checked first, then the truncation, the deletes and the puts apply together or not at all |
| `HeaderStore.AcceptedIff` | src/core/headerstore.ts:83-139 | A write is refused exactly for a key outside the table's chunks or a head below the floor or with a malformed hash |
| `HeaderStore.MergeShape` | src/core/namespv.ts:904-912 | The puts of a merged write are the older ones at or below the newer cut, overridden by the newer ones |
| `HeaderStore.MergeAt` | src/core/namespv.ts:904-912 | At each key, the merged write and the two writes in order leave the same chunk, but for keys between the two cuts that neither write puts |
| `HeaderStore.MergeIsSequential` | src/core/namespv.ts:904-912 | Merging equals running both writes in order if and only if no stored key lies in that gap; the head always agrees |
| `SuffixStore.ReadSuffix` | src/core/namespv.ts:671-678 | A restore reads the stored suffix chunk by chunk up to the first missing, empty, oversized or short one |
| `SuffixStore.RestoreReadsChain` | src/core/namespv.ts:670-680 | A store that holds the chain's slices above the newest anchor reads back as the chain |
| `SuffixStore.RestoreAgrees` | src/core/namespv.ts:716-718 | A client restored on a prefix of the store agrees with it on whole chunks up to the smaller tip |
| `SuffixStore.StoreWriter.Detach` | src/core/namespv.ts:914-921 | A write is queued, or merged into the pending one; a merge that throws leaves the queue as it was |
| `SuffixStore.StoreWriter.Take` | src/core/namespv.ts:921-926 | The writer starts the pending write and empties the slot, or stops |
| `SuffixStore.StoreWriter.Land` | src/core/namespv.ts:927-930 | A started write lands whole or is dropped, and the queue goes on |
| `SuffixStore.MergeJobs` | src/core/namespv.ts:904-931 | Coalescing a suffix write into a pending one gives one suffix write with the effect of both, in order |
| `SuffixStore.AnchoredCommutes` | src/core/headerstore.ts:219-256 | Suffix writes and the acquirer's writes of anchored chunks commute |
| `SuffixStore.PersistIsExact` | src/core/namespv.ts:725-742 | One persist over a store that agrees on the whole chunks below leaves exactly the chain, its head, and nothing above |
| `SuffixStore.SuffixWriteAccepted` | src/core/headerstore.ts:121-150 | The store takes every suffix write of a session whose chunks are in its range and whose hash is well written |
| `SuffixStore.QueueIsApply` | src/core/namespv.ts:914-931 | What is queued behind a write in flight has, once landed, the effect of every persist handed over |
| `SuffixStore.StepKeepsInv` | src/core/namespv.ts:725-742 | Every advance, reseed, persist, writer turn, failure and anchored write keeps the store invariant |
| `SuffixStore.RunKeepsInv` | src/core/namespv.ts:725-742 | So does every run from a restored session |
| `SuffixStore.SettledStoreIsChain` | src/core/namespv.ts:725-742 | After any run and any coalescing, with the queue empty and the chunks of every failed write rewritten since, the store above the newest anchor is exactly the persisted chain and a restore reads it back |
| `SuffixStore.AnchoredChunksAreTheAcquirers` | src/core/headerstore.ts:219-256 | No run changes an anchored chunk except through the acquirer |
| `ChunkAcquirer.ChunkLru.Get` | src/core/headerstore.ts:184-188 | A hit becomes the newest entry; the cache stays the last eight distinct chunks used |
| `ChunkAcquirer.ChunkLru.Set` | src/core/headerstore.ts:189-193 | Storing a chunk evicts the least recently used ones, and only them |
| `ChunkAcquirer.UseCut` | src/core/headerstore.ts:179-195 | Evicting at every use keeps what cutting the whole use history would keep |
| `ChunkAcquirer.Acquirer.Acquire` | src/core/headerstore.ts:238-255 | A chunk is returned only when it links to its two baked hashes, whichever of cache, store and source it came from; it refuses exactly outside the table, and it writes only verified records and deletions of failing ones |
| `ChunkAcquirer.VerifiedChunkIsFixed` | src/core/headerstore.ts:216-256 | A height is always given the same chunk, whatever store and sources serve |
| `HeaderChain.VerifyLinkedRecords` | src/vendor/cairnx-spv.js:1002-1018 | The link walk accepts exactly the segments that link end to end between the given hashes |
| `HeaderChain.LastHashFixesChain` | src/core/spvpin.ts:32-52 | The last hash of a linked segment fixes all its records |
| `HeaderChain.SpecOf` | src/core/headerstore.ts:34-41 | A chunk has a spec exactly when the table anchors it |
| `HeaderChain.ChunkHeaderIsTheHeader` | src/core/namespv.ts:502-508 | Reading a header's hash from the next record's prev gives the header's own hash |
| `HeaderChain.ChunksCompose` | src/core/headerstore.ts:34-41 | Chunks verified one by one form one linked chain from the floor hash to the newest anchor, one record a height |
| `HeaderChain.LatestIsFirstMaximum` | src/core/spvpin.ts:32-52 | The latest record is the first one of maximal timestamp |
| `HeaderChain.WalkSegment` | src/core/spvpin.ts:36-48 | A segment of the walk is accepted exactly as the whole linked walk requires |
| `HeaderChain.LaterOf` | src/core/spvpin.ts:36-48 | The latest record is carried over a segment |
| `HeaderChain.WalkToPin` | src/core/spvpin.ts:32-52 | The chunk by chunk walk succeeds if and only if the whole suffix links from the anchor to the pin, and then names the first record of maximal timestamp |
| `LightClients.LightClient.IngestAll` | src/vendor/cairnx-spv.js:1038-1240 | The client ingests headers in order and stops at the first that fails a check |
| `LightClients.CheckIff` | src/vendor/cairnx-spv.js:1038-1240 | When a header is taken, and when the clock or a pinned hash is to blame for a refusal |
| `LightClients.ChainWorkIsWork` | src/core/namespv.ts:704-708 | A client's counter is the work of its records, capped at 128 bits |
| `LightClients.LatestTimeHolds` | src/core/spvpin.ts:61-71 | The re-run of the time rules accepts exactly when a client seeded below the record takes it with every check |
| `LightClients.ClockOnly` | src/core/spvpin.ts:54-71 | Of headers accepted once, only the future-drift bound can fail later |
| `LightClients.LatestDecidesAll` | src/core/spvpin.ts:54-71 | Re-running the time rules on the latest walked record passes exactly when every walked record is in time now |
| `LightClients.WalkFindsTheSeenChain` | src/core/spvpin.ts:32-52 | Records that walk to a pin are the records the pin was taken on |
| `LightClients.PinnedIsAnchored` | src/core/namespv.ts:685-708 | A client seeded at the pin over the records the pin was taken on ends as one seeded at the anchor |
| `LightClients.PinRestoreIsAnchorRestore` | src/core/namespv.ts:685-708 | When the walk and the re-run succeed, a restore from the pin holds what a full check from the anchor would hold, and stops at the same fault |
| `SpvSources.SyncAligned` | src/core/namespv.ts:955-957 | Syncing page by page ingests exactly the served headers up to the target or the first fault |
| `SpvSources.FloorIsBounded` | src/core/namespv.ts:410-420 | Over any syncs the lapse floor only rises, never above the larger of its start and the verified tip plus 12, and to no less than the node's tip within that |
| `SpvSources.AnchoredAt` | src/core/namespv.ts:774-784 | Which chunk and index hold a height of the anchored chain |
| `SpvSources.ChunkHeaderAt` | src/core/namespv.ts:502-508 | The header read from an anchored chunk is the chain's header at that height |
| `SpvSources.HeaderBelow` | src/core/namespv.ts:774-784 | At or below the newest anchor, the hash and merkle root are those of the anchored chain |
| `SpvSources.CutPuts` | src/core/namespv.ts:727-740 | The records handed over are cut into exactly the chunks the persisted prefix lacks |
| `SpvSources.SpvSource.HeldIsWork` | src/core/namespv.ts:704-708 | The held work is the cumulative work from the anchor's seed on, however the session was restored |
| `SpvSources.SpvSource.OneChain` | src/core/namespv.ts:774-784 | Anchored chunks, walked records and client records are one linked chain from the floor to the tip |
| `SpvSources.SpvSource.HeldAtIsInChain` | src/core/namespv.ts:774-784 | Every height from the floor to the tip lies in one of three ranges split at the newest anchor and the client's base, and the chunk, the walked records or the client of its range keep the chain's record |
| `SpvSources.SpvSource.HeaderAt` | src/core/namespv.ts:774-784 | The hash and merkle root answered for a height are the chain's, in every region, and null outside it |
| `SpvSources.SpvSource.SuffixWrite` | src/core/namespv.ts:727-741 | The write hands over every chunk from the first unpersisted record to the tip, with the cut and the head |
| `SpvSources.SpvSource.WritePin` | src/core/namespv.ts:711-715 | A pin is written exactly at a tip 46 records above the anchor that is not the one restored from, with the held work, and is one a later session may restore from |
| `SpvSources.SpvSource.Sync` | src/core/namespv.ts:806-812 | A sync only appends, reaches its target when it does not fail, and never lowers the held work; what it ends with is a function of the served headers |
| `SpvSources.SpvSource.Persist` | src/core/namespv.ts:742-742 | Persisting hands over the rest of the suffix and keeps every invariant |
| `SpvSources.SpvSource.Advance` | src/core/namespv.ts:967-976 | The windowed sync keeps verified progress and reaches its target or fails |
| `SpvSources.SpvSource.WriterTakes` | src/core/namespv.ts:921-926 | A writer turn in the middle of a session keeps every invariant |
| `SpvSources.SpvSource.AcquirerWrites` | src/core/headerstore.ts:219-224 | So does a write of the acquirer |
| `SpvSources.SpvSource.Adopt` | src/core/namespv.ts:844-848 | A replacement takes over with nothing persisted, and its held work is its own |
| `SpvSources.SpvSource.CatchUp` | src/core/namespv.ts:813-849 | A structural break is answered by the replacement exactly when the second reply's headers, checked from the newest anchor, reach the height wanted with strictly more work and the rest of the sync goes through; each refusal happens only for its own cause, and keeps the held chain |
| `SpvSources.SpvSource.RaiseFloor` | src/core/namespv.ts:857-859 | The floor moves by the clamped rule, from the tip just verified |
| `SpvSources.SpvSource.Prepare` | src/core/namespv.ts:799-862 | The same through the whole entry point: which chain is held and what is refused follows from the served headers; held work never decreases, and the tips answered are those of the state reached |
| `SpvSources.SpvSource.StoredIsHeld` | src/core/namespv.ts:725-742 | With the writer idle and no lost write unrepaired, a restore would read back the persisted chain of this very session |
| `SpvSources.PinUsable` | src/core/namespv.ts:688-695 | A pin is used if and only if the stored suffix walks to it and its latest record passes every check now over the records below it |
| `SpvSources.PinClient` | src/core/namespv.ts:697-706 | Seeding at the pin gives the chain and work base of a seeding at the anchor |
| `SpvSources.RestoreClient` | src/core/namespv.ts:697-706 | Whichever way a restore goes, it holds what a full check of the stored suffix accepts |
| `SpvSources.Restore` | src/core/namespv.ts:670-720 | A restored session satisfies every invariant the session keeps, starts from the pin exactly when that is usable, and pins its tip when it should |
| `Transactions.StrippedEqual` | src/core/csdtx.ts:54-57 | Stripped transactions are equal exactly when the originals differ at most in scriptSigs of inputs that are not coinbases |
| `TxCodec.Fill` | src/core/csdtx.ts:26-27 | The buffer fill writes the value little-endian, wrapped to the width |
| `TxCodec.LEWraps` | src/core/csdtx.ts:26-27 | The bytes written hold the value modulo the width |
| `TxCodec.FromLEInverts` | src/core/csdtx.ts:26-27 | An in-range value is read back |
| `TxCodec.Serialize` | src/core/csdtx.ts:44-53 | Serializing throws exactly on fields of a wrong width, and else writes the transaction's bytes |
| `TxCodec.DecodeSerialized` | src/core/csdtx.ts:38-53 | A decoder recovers the transaction and the untouched rest from its bytes followed by anything |
| `TxCodec.SerializePrefixFree` | src/core/csdtx.ts:38-53 | No transaction's bytes begin another's, so serialization is injective |
| `TxCodec.StrippedBytesEqual` | src/core/csdtx.ts:54-57 | The bytes that are hashed for a txid agree exactly for transactions that differ at most in such scriptSigs |
| `Blocks.MerkleRoot` | src/vendor/cairnx-spv.js:604-620 | The loop computes the layered root, an odd last leaf paired with itself |
| `Blocks.RootFixes` | src/vendor/cairnx-spv.js:604-620 | Distinct leaves are fixed by their root, their number included |
| `Blocks.RepeatedLeafKeepsRoot` | src/vendor/cairnx-spv.js:950-972 | Without the repeated-txid check two bodies can share a root |
| `Blocks.BindBlockTxs` | src/vendor/cairnx-spv.js:950-972 | A body binds exactly when its txids are distinct and hash to the verified root |
| `Blocks.BoundIsMined` | src/core/spvbind.ts:112-121 | A body that binds is the mined one up to signatures: nothing left out, added, altered or reordered |
| `Blocks.PrevoutOwner` | src/core/namespv.ts:879-890 | Whatever the node answers for a spent transaction, the owner read is the coin's or none |
| `Blocks.BoundAuthorIsTheAuthor` | src/core/spvbind.ts:52-61 | Whatever scriptSig and spent transaction are served, an author bind names the owner of the coin spent or refuses |
| `Blocks.AuthorSpends` | src/core/spvbind.ts:52-61 | The author of a transaction is whoever the 20-byte script of the coin its first input spends names |
| `Blocks.BindsIff` | src/core/spvbind.ts:52-61 | An author binds exactly when the node answers with the spent transaction and the first script is that owner's signature; unsigned and coin-less ones are told apart |
| `FillScan.ScanFindsTheLane` | src/core/fillspv.ts:187-220 | The two passes find exactly the offer's lane events, attests in either block order, each at a height it was mined at |
| `FillScan.BindWindow` | src/core/fillspv.ts:174-182 | The pool binds every block of the window or fails |
| `FillScan.ScanWindow` | src/core/fillspv.ts:183-220 | The loops over the bound window compute the scan |
| `FillScan.WindowScansAlike` | src/core/fillspv.ts:143-220 | A window that binds scans as the mined one does |
| `FillScan.LiveHoldsAreInWindow` | src/core/fillspv.ts:174-174 | The window is wide enough: while the grant's own hold lasts at the tip, every other hold mined anywhere up to the tip and live at the grant is among those the window finds |
| `FillScan.ProvenIsTrue` | src/core/fillspv.ts:152-169 | An event proven from served data is the mined event with its true author |
| `FillScan.ProveScanned` | src/core/fillspv.ts:294-299 | Every scanned event is proven, or the source fails |
| `FillScan.HoldLastsThroughEpoch` | src/vendor/cairnx-spv.js:3660-3660 | A hold lasts exactly through the last height of the epoch it names |
| `FillScan.CountsIff` | src/vendor/cairnx-spv.js:5447-5462 | Which hold counts at a grant: mine, of another offer, mined earlier by height and place, open, and its epoch not over at the grant |
| `FillScan.LiveIff` | src/core/fillspv.ts:231-231 | The holds looked at are those whose last epoch is not over at the grant |
| `FillScan.ScanFindsOthers` | src/core/fillspv.ts:187-220 | The scan finds exactly the holds on other offers that the window's blocks hold, each at its height and place |
| `FillScan.HoldCountIs` | src/core/fillspv.ts:231-280 | The answered count, over the mined holds themselves: the offers of the live ones mine or bound to nobody, without those provably closed when the plain count reaches the cap |
| `FillScan.CountOtherHoldsAtGrant` | src/vendor/cairnx-spv.js:5447-5462 | The count is the number of distinct other offers with a hold attributed to me, mined before the grant (its own block counted by place in the block), not closed, and whose last epoch the grant's height has not passed; early grants are refused |
| `FillScan.CountHolds` | src/core/fillspv.ts:231-280 | The scan's count with unbindable holds attributed to me and provably closed ones removed |
| `FillScan.CountCoversMyHolds` | src/core/fillspv.ts:231-280 | Whatever is served, the count is at least the number of other offers my open holds are truly on |
| `FillScan.LiveFill` | src/core/fillspv.ts:103-311 | It returns exactly under the listed conditions; then the lane ids and their proven events are the ones the verified headers commit to, the count is the one at the grant's mined place, and it covers every other offer my open holds are on |
| `FillScan.EvidenceIsFixed` | src/core/fillspv.ts:103-311 | Two sources that succeed over one chain agree on every lane id and event |
| `HoldCounts.ShownCounts` | src/core/fillspv.ts:231-280 | The counts of a node that shows everything but some hidden holds are counts on the mined chain |
| `HoldCounts.AnyCounts` | src/core/fillspv.ts:231-280 | Any node can only choose which of the others' holds to hide, which adds them to mine, and keep more of them open |
| `HoldCounts.GuardedCountAtLeastHonest` | src/core/fillspv.ts:253-280 | With no second source, or with the plain count under the cap, the count is at least the honest node's |
| `HoldCounts.VerdictNeverLooser` | src/core/fillspv.ts:253-280 | A count under the cap means the honest count is under it too |
| `HoldCounts.FallIsBounded` | src/core/fillspv.ts:253-280 | The count falls short of the honest one by less than the cap, and by no more than the offers my own fills closed |
| `HoldCounts.LoweredExactly` | src/core/fillspv.ts:253-280 | A node that lowers the count exists if and only if the second source is given, my live holds stay under the cap, and some of the others' live holds lift them to it while fewer offers than mine stay open |
| `HoldCounts.ScannedAreMined` | src/core/fillspv.ts:183-220 | The live holds a scan of a verified window finds are mined there, with the author of the coin they spend |
| `HoldCounts.ReturnedCount` | src/core/fillspv.ts:103-311 | The count a source returns is that of its own answers, gives no looser verdict than an honest node's, and falls short of it only within the bound |
| `HoldExample.TheScan` | src/core/fillspv.ts:183-220 | The scan of a concrete mined chain: three fclaims of other offers, two fills of mine, and the grant |
| `HoldExample.HidingLowersTheCount` | src/core/fillspv.ts:253-280 | On that chain an honest node's count is two and a node that withholds one spent coin makes it one |
| `HoldExample.BothAreAccepted` | src/core/fillspv.ts:103-311 | Neither of the two nodes makes the source refuse |
| `CoinSelect.EligibleIs` | src/vendor/cairnx-spv.js:3528-3540 | A coin is eligible exactly when it is the first spendable report of its outpoint |
| `CoinSelect.EligibleDistinct` | src/vendor/cairnx-spv.js:3528-3540 | Eligible coins are distinct, positive, safe and not excluded |
| `CoinSelect.SortDescSorts` | src/vendor/cairnx-spv.js:3541-3544 | The pool is tried largest first, nothing lost |
| `CoinSelect.Take` | src/vendor/cairnx-spv.js:3541-3553 | The greedy loop over one pool |
| `CoinSelect.SelectInputs` | src/vendor/cairnx-spv.js:3528-3555 | The plain coins are tried first, then all of them |
| `CoinSelect.SpendableCoins` | src/core/node.ts:497-510 | The wallet's own list, one coin at a time through the selector, is the selector's eligible list |
| `CoinSelect.LargestAreBest` | src/vendor/cairnx-spv.js:3541-3553 | No choice of as many coins is worth more than the largest ones |
| `CoinSelect.TakenNoneIff` | src/vendor/cairnx-spv.js:3541-3553 | A pool yields nothing if and only if no choice of at most 512 of its coins covers the need, or its largest coins pass the safe range before any fewer cover it |
| `CoinSelect.NoSelectionMeansUncoverable` | src/vendor/cairnx-spv.js:3528-3555 | There is no selection if and only if neither the plain coins nor all of them yield one |
| `CoinSelect.OverflowRefusesCoverable` | src/vendor/cairnx-spv.js:3541-3553 | Concrete input: two coins that cover the need and are refused because their sum leaves the safe range |
| `CoinSelect.SelectionIsLeast` | src/vendor/cairnx-spv.js:3528-3555 | A selection covers the need with the fewest coins of the pool it is from |
| `CoinVerify.ValueIsOnChain` | src/core/node.ts:254-290 | A numeric verdict is the coin's real value, whatever was served |
| `CoinVerify.DecisiveIff` | src/core/node.ts:254-290 | Which replies refuse the whole spend: no clear answer, or a readable body that is not the coin's |
| `CoinVerify.SkippableIff` | src/core/node.ts:254-290 | Which skip the coin alone: proved absent, out of the node's reach, or carrying a number that is not exact; the rest prove its value |
| `CoinVerify.WorkerStep` | src/core/node.ts:203-212 | One worker's next step keeps every filled slot truthful and makes progress |
| `CoinVerify.MapLimit` | src/core/node.ts:200-215 | Under every interleaving of the workers, filled slots hold their own item's verdict, and all are filled unless a decisive one stopped the pool |
| `CoinVerify.VerifyInputValues` | src/core/node.ts:240-321 | Without a decisive verdict the answer is a function of the verdicts alone; with one, the spend is refused for one of those present |
| `CoinVerify.FoldedMeans` | src/core/node.ts:291-321 | A total is answered exactly when every coin has a value and the sum is safe; a skippable refusal lists every not-found coin and every coin of its class, and only those |
| `CoinSpend.SkipCaches.SessionExclusions` | src/core/node.ts:352-356 | Expired entries go, what is left is excluded, and the three caches stay disjoint |
| `CoinSpend.SkipCaches.RememberSkip` | src/core/node.ts:357-361 | A coin is filed under one reason only, until two minutes later, and out of the other two; a cache that outgrows 2048 entries is emptied |
| `CoinSpend.Spender.Round` | src/core/node.ts:394-428 | One round is exactly its verdicts: it finds no selection, fails for a deciding verdict present or a sum that is unsafe or too small, pays, or excludes just the coins it could not prove |
| `CoinSpend.Spender.Rounds` | src/core/node.ts:389-428 | The rounds end as three of them, each handing its exclusions and proven values to the next, must end; a payment covers its target with coins verified in this call |
| `CoinSpend.Spender.SelectVerified` | src/core/node.ts:371-471 | What is selected, or the refusal and its reason, follows from the report, the replies and what the caches still exclude; funds are distinct coins, each verified in this call, covering the target |
| `CoinSpend.Spender.Diagnose` | src/core/node.ts:430-471 | Which refusal names the cause: too many inputs exactly when the rounds ran out and coins to spare remain |
| `CoinSpend.SecondRoundPays` | src/core/node.ts:389-428 | A coin the node cannot prove costs a round, not the spend: what the second round can prove it pays |
| `CoinSpend.ThirdRoundPays` | src/core/node.ts:389-428 | So does the third, after two that skipped |
| `CoinSpend.NoFourthRound` | src/core/node.ts:444-448 | After three rounds that skipped the spend is refused as unavailable, whatever is left |
| `CoinSpend.Spender.AssembleValueTx` | src/core/node.ts:595-639 | What is handed to signing spends verified distinct coins whose values are exactly the payments, the declared fee and change to the signer, the fee at most 100 CSD and a tenth of the inputs or one CSD; and whether there is one, or which refusal, follows from the selection |
| `CoinSpend.ValidateOutputs` | src/core/node.ts:650-662 | Outputs pass exactly when their number, addresses, values and sum are allowed |
| `CoinSpend.Spender.Send` | src/core/node.ts:706-720 | A send is safe in that sense; it is refused for its arguments exactly when they are bad, and else ends as its selection does |
| `CoinSpend.Spender.SendMany` | src/core/node.ts:723-735 | So is a send to many, and a fill |
| `CoinSpend.Spender.BuildSignSubmit` | src/core/node.ts:668-676 | So is an app transaction with payouts, though this path does not check the sum with the fee |
| `CoinSpend.Spender.Consolidate` | src/core/node.ts:744-793 | A merge spends at least two and at most 512 of the smallest eligible coins, verified, into one output to the signer, and pays nobody else; when it does, and how many coins remain, follows from its three rounds |
| `CoinSpend.Spender.MaxSendable` | src/core/node.ts:837-871 | With both passes seeing the same and nothing expiring: a positive maximum is exact, zero means that no amount goes through at that fee, with every reply provable it is all of the 512 largest coins less the fee, and any refusal is the first pass's or the fee cap's |
| `CoinSpend.NothingPastMax` | src/core/node.ts:837-871 | Past the 512 largest eligible coins nothing is selected |
| `CoinSpend.MaxIsExact` | src/core/node.ts:837-871 | The amount found goes through at that fee and nothing larger is selected |
| `CoinSpend.SomethingGoesIff` | src/core/node.ts:837-871 | With every coin provable, some positive amount goes through exactly when the 512 largest coins are worth more than the fee and the fee is within its cap for them |
| `CoinSpend.MaxSends` | src/core/node.ts:837-871 | After Max, a send of exactly that amount goes through and a send of any more is refused |
| `Units.ParseFormat` | src/core/cairnx.ts:265-275 | Parsing what was printed gives the amount, for every amount and number of decimals allowed |
| `Units.FormatParse` | src/core/cairnx.ts:233-243 | Printing what was parsed gives the text back without redundant zeros |
| `Units.ParseReads` | src/core/cairnx.ts:265-275 | What a figure is worth: its whole part in units of ten to the decimals, plus its fraction at its own place, refused past 2^96 - 1 |
| `Utf.LoneSurrogateIsIllFormed` | src/core/siwc.ts:24-34 | The surrogate check refuses exactly the strings that are not well-formed UTF-16 (section 2.2 of RFC 2781) |
| `Utf.Utf8Injective` | src/core/siwc.ts:24-34 | Well-formed strings with equal UTF-8 bytes (section 3 of RFC 3629) are equal |
| `Siwc.CheckFields` | src/core/siwc.ts:43-50 | The field check passes exactly on accepted fields |
| `Siwc.AcceptedMeans` | src/core/siwc.ts:21-50 | What accepted fields hold: no line terminator, no lone surrogate, an account and a nonce of the required shape |
| `Siwc.BuildSiwcMessage` | src/core/siwc.ts:43-69 | The builder throws exactly on fields it does not accept, and else joins the lines |
| `Siwc.MessageDecodes` | src/core/siwc.ts:43-69 | A decoder recovers every field from the message, up to an empty statement |
| `Siwc.SignedBytesFixFields` | src/core/siwc.ts:43-69 | Equal signed bytes mean equal fields |
| `Seals.CapSeals` | src/core/claims.ts:16-25 | The counting loop computes the capped list |
| `Seals.WalkDropsOldestRevealed` | src/core/claims.ts:16-25 | The cap drops exactly the oldest revealed entries needed and keeps the order of the rest |
| `Seals.WalkKeeps` | src/core/claims.ts:16-25 | No unrevealed entry is dropped and nothing is added |
| `Seals.StepKeeps` | src/core/claims.ts:81-131 | Every step of the chain keeps an accepted seal stored or parked and unrevealed |
| `Seals.RunKeeps` | src/core/claims.ts:81-131 | So does every run without its own reveal, its account's removal or a reset |
| `Seals.AcceptedSealIsRecoverable` | src/core/claims.ts:81-98 | A seal accepted on an unwiped wallet is recoverable in every later state, through locks, failing reads and writes, other seals and cap evictions |
| `Seals.ParkedSealsAreStored` | src/core/claims.ts:81-98 | On an unlocked wallet whose store answers, one persist stores every parked seal in its account's list and leaves none parked |
| `Seals.LockedOnlyParks` | src/core/claims.ts:81-90 | A locked wallet parks a seal and starts no write, and takes no reveal |
| `Seals.MarkIs` | src/core/claims.ts:119-127 | A reveal marks the first entry of its txid and no other |
| `Seals.RevealLands` | src/core/claims.ts:116-128 | A reveal whose read and write are answered marks the stored entry and its parked twins, and nothing else |
| `Seals.RemovalLands` | src/core/wallet.ts:505-505 | A removal whose delete lands leaves the account no list and nothing parked, and the others as they were |
| `Seals.ResetLeavesNoSeal` | src/core/wallet.ts:1100-1114 | From any state, after the wipe and the chained reset, whatever runs in between and after, no seal is parked and none stored but under keys the reset did not name, until a new vault is sealed |
| `Seals.SealedClaims.PersistSeal` | src/core/claims.ts:81-90 | Parking a seal and starting the writes of every parked key |
| `Seals.SealedClaims.ReadAnswered` | src/core/claims.ts:91-94 | Merging the parked records on top of the list just read |
| `Seals.SealedClaims.WriteAnswered` | src/core/claims.ts:93-96 | A list write that lands unparks its key's records, a failed one leaves them parked |
| `Seals.SealedClaims.RevealClaim` | src/core/claims.ts:114-131 | The write-back of a reveal starts on a fresh read |
| `Seals.SealedClaims.RemoveAccount` | src/core/wallet.ts:505-505 | A removal unparks the account's seals and deletes its list in the chain |
| `Chains.CallsRunInOrder` | src/core/wallet.ts:216-220 | Calls of one chain never overlap and start in call order; a reset waits for all three chains and holds all three |
| `Chains.NeverStuck` | src/core/namespv.ts:945-953 | Rejections stop nothing: while a call waits, one is in progress or can start |
| `Chains.QueueLinks` | src/core/wallet.ts:1100-1109 | Queueing on one chain, or on all three at a reset, keeps every call behind the last earlier call of each of its chains |
| `Vault.ApplyKeeps` | src/core/wallet.ts:439-469 | Adding, importing, switching and renaming keep `active` in range, and every derived index used once and below the next one |
| `Vault.RemoveFollows` | src/core/wallet.ts:496-500 | A removal keeps the others in order and the active account active wherever it moved to |
| `Vault.OpenedIsGood` | src/core/wallet.ts:346-367 | Whatever was stored opens with an active account and an unused next index; what this wallet stored opens as it was |
| `Vault.StepKeeps` | src/core/wallet.ts:216-234 | Every edit, write step, delete step, failure, lock, unlock and worker restart keeps the stored and the in-memory accounts in step |
| `Vault.QuietMeansSaved` | src/core/wallet.ts:205-234 | Over every run from any store, worker restarts included, once no write is queued or running, no removal is under way or failed and the last write landed, vault, mirror and active key are those in memory |
| `Vault.EditIsSaved` | src/core/wallet.ts:205-234 | After an edit of an open wallet, writes that land leave vault, mirror and active key as the accounts in memory, with nothing left to write |
| `Vault.RemovalIsSaved` | src/core/wallet.ts:496-506 | So does a removal once its lists are deleted |
| `Vault.SealOpens` | src/core/wallet.ts:236-256 | A new wallet is open once its three keys are down, not before, and saved then |
| `Vault.UnlockOpens` | src/core/wallet.ts:329-367 | An unlock opens what the vault held when it was read, as it was, and queues a write |
| `Vault.RestartLosesNothing` | src/core/wallet.ts:384-400 | A worker that dies with everything saved and reopens its session loses nothing |
| `Vault.ResetErases` | src/core/wallet.ts:1110-1114 | A reset whose deletes land leaves no vault, no mirror and no active key |
| `Vault.FailedRemovalComesBack` | src/core/wallet.ts:504-506 | A removal whose list deletes fail is undone by the next unlock |
| `Vault.ResetIsFinal` | src/core/wallet.ts:1100-1114 | From any reachable state with no unlock and no sealing in flight, after the lock and the reset, whatever was queued before, the wallet has no vault and stays locked until a new one is sealed |
| `Vault.ResetIsFinalIff` | src/core/wallet.ts:329-343 | When the last delete lands, no run brings a vault or an unlocked wallet back if and only if the wallet is locked and no unlock is still deriving its key |
| `Vault.UnlockRestoresVault` | src/core/wallet.ts:329-343 | Concrete run: an unlock that read the vault before the reset writes it back after |
| `Vault.DoReset` | src/core/wallet.ts:1110-1114 | A reset deletes the mirrored accounts' lists and then its own keys, in order, up to the first delete that fails |
| `Vault.ResetLeavesUnmirrored` | src/core/wallet.ts:1100-1114 | When every delete lands, a per-account list survives if and only if the mirror read at the start does not name the account |
| `Vault.SavedResetDeletesAll` | src/core/wallet.ts:1100-1114 | A wallet whose writes have landed names every account it holds, so all their lists are deleted |
| `Vault.MirrorLags` | src/core/wallet.ts:230-234 | Concrete run: an import whose mirror write fails leaves a sealed account the reset does not name |
| `Vault.Wallet.AddAccount` | src/core/wallet.ts:439-447 | The new account is last and active: derived at the next index, which is then used, or a fresh imported key without a phrase |
| `Vault.Wallet.ImportAccount` | src/core/wallet.ts:448-454 | An imported key is added, last and active, exactly when no account has its address in any case of letters |
| `Vault.Wallet.SwitchAccount` | src/core/wallet.ts:455-463 | Switching checks the index and queues a write |
| `Vault.Wallet.RenameAccount` | src/core/wallet.ts:464-469 | The first account at the address gets the name and no other changes; with none there nothing does |
| `Vault.Wallet.RemoveAccount` | src/core/wallet.ts:470-500 | Removal refuses the last account and moves `active` |
| `Vault.Wallet.UnlockWith` | src/core/wallet.ts:329-367 | An unlock adopts the vault it read and queues a write |
| `Vault.Wallet.StartWrite` | src/core/wallet.ts:221-229 | A write snapshots document, mirror and active index together when its turn comes |
| `Vault.Wallet.KeyWritten` | src/core/wallet.ts:230-256 | The three keys land one by one; a new wallet is adopted only after the last |
| `Vault.Wallet.KeyDeleted` | src/core/wallet.ts:1110-1114 | A reset's deletes land one by one or end it |
| `Vault.Wallet.RestartWorker` | src/core/wallet.ts:384-400 | A new worker holds nothing but the stored vault its session reopens, and queues no write |
| `History.GoneIff` | src/core/inclusion.ts:37-46 | A row is gone if and only if, since the last reading that said otherwise, a later "spent" came at a tip above the first one's |
| `History.InclusionIs` | src/core/inclusion.ts:20-36 | What one reading says, exactly: included, spent, open, or nothing |
| `History.SettleIncludes` | src/core/history.ts:189-201 | When a row is settled as included, and what that clears and sets |
| `History.SettleWaits` | src/core/history.ts:202-206 | A row not included keeps its identity; when it becomes stuck, marked and gone |
| `History.PendingIs` | src/core/history.ts:207-214 | What merges still bring: each one neither confirmed nor gone adds its amount less its fee, and no other row anything |
| `History.SettleList` | src/core/history.ts:187-218 | The chained step settles every row of the freshly read list, totals what merges still bring, and says whether one is a maybe or stuck |
| `History.ChangeRewrites` | src/core/history.ts:78-105 | Clearing a maybe, latching merges and settling keep every row in place, clear no confirmed flag and set no maybe |
| `History.ClearedIs` | src/core/history.ts:78-90 | Clearing a maybe settles the first row of the txid that is one, and no other |
| `History.RecordKeeps` | src/core/history.ts:106-119 | A record keeps txids distinct, at most 200 rows, and every earlier row but a displaced one |
| `History.RecordedIs` | src/core/history.ts:106-119 | A new row goes on top of the newest 199; a definite one settles the maybe already there, in place |
| `History.RecordLands` | src/core/history.ts:126-143 | On an unlocked wallet a record whose read and write are answered is written, and takes over from a parked maybe of its txid only |
| `History.FailureParks` | src/core/history.ts:138-142 | A record whose read or write fails is parked |
| `History.DrainStoresAll` | src/core/history.ts:144-150 | A drain whose reads and writes are answered records every parked row, in order, and leaves none parked |
| `History.ChangeLands` | src/core/history.ts:78-105 | A change whose read and write are answered changes its own list and nothing else |
| `History.RunValid` | src/core/history.ts:106-119 | Over every run, stored lists keep distinct txids and at most 200 rows |
| `History.StepSettles` | src/core/history.ts:46-119 | No step clears a stored confirmed flag or makes a definite row a maybe |
| `History.StepHolds` | src/core/history.ts:126-150 | Every step keeps a recorded row stored, parked or in the running callback's hands |
| `History.RunHolds` | src/core/history.ts:126-150 | Over every run a recorded row is stored or parked at each chain boundary until displaced by newer rows, removed or reset |
| `History.RecordIsHeld` | src/core/history.ts:126-137 | A record is held from its first step, but on a wiped and locked wallet |
| `History.ResetLeavesNoRow` | src/core/wallet.ts:1100-1114 | From any state, after the wipe and the chained reset, no row is parked and none stored but under keys the reset did not name, until a new vault is sealed or an unlock ends |
| `History.UnlockAfterResetRecords` | src/core/history.ts:126-137 | Concrete run: an unlock that ends after the reset lets the old wallet's next row be stored |
| `History.TxHistory.MaybeRecord` | src/core/history.ts:46-77 | A sent row is recorded definite, an ambiguous one as a maybe, and a duplicate answer never adds a row |
| `History.TxHistory.RecordTx` | src/core/history.ts:126-143 | A locked wallet parks the row, an unlocked one drops the maybe twin and starts the write |
| `History.TxHistory.DrainPendingHist` | src/core/history.ts:144-150 | A drain takes the parked rows and writes them one by one |
| `History.TxHistory.ReadAnswered` | src/core/history.ts:106-119 | The list is recomputed from the read just answered |
| `History.TxHistory.WriteAnswered` | src/core/history.ts:134-150 | A write that fails parks its row again |
| `Names.ReplayName` | src/core/namespv.ts:177-236 | The loops over heights and hints prove every hint, or refuse for the first cause met |
| `Names.GroupByHeight` | src/core/namespv.ts:180-189 | Hints grouped by height in first-seen order, refused on a height that is not a whole number |
| `Names.GroupedSame` | src/core/namespv.ts:180-189 | Grouping loses no hint and adds none |
| `Names.ProveIsMined` | src/core/namespv.ts:194-216 | A hint proved from served data is the mined record with the owner of the coin it spends |
| `Names.EvidencePermutes` | src/core/namespv.ts:194-219 | The records proved do not depend on the order of the hints |
| `Names.ReplayIsBacked` | src/core/namespv.ts:177-236 | Whatever bodies and spent transactions are served, a proven address is the one the resolver's record sets, in lower case, or its owner's when it sets none; the records are mined and bound to the owners of the coins they spend, and the name is neither pending nor expired |
| `Names.TrueReplayAnswers` | src/core/namespv.ts:177-236 | A replay whose records are truly served answers, and exactly as the resolver judges the mined records: nothing owned, lapsed, reserved, or an address |
| `Names.ProveErrs` | src/core/namespv.ts:194-216 | Why a record is not proved: its block is not served, does not bind, or holds no such txid; one that is proved is in the block and a record |
| `Names.LapseIsBacked` | src/core/namespv.ts:220-232 | A lapse is the chain's own, and corroborated exactly when the floor shows it too |
| `NameCache.SameListSamePairs` | src/core/namecache.ts:23-36 | Two hint sets sort to one list exactly when they hold the same valid pairs |
| `NameCache.ValidPairsAre` | src/core/namecache.ts:23-29 | The pairs kept are those of the hints with a txid and a whole height, in lower case |
| `NameCache.HintPairsEqual` | src/core/namecache.ts:30-36 | The loop decides equality of the lists |
| `NameCache.ClaimsMeta` | src/core/namecache.ts:38-58 | The loop flags any disagreeing claim and any served lapse |
| `NameCache.EvaluateHintSetSkip` | src/core/namecache.ts:60-88 | A skip is allowed exactly when time, epoch, pairs, claims and every header hash agree |
| `NameCache.SkipMeansUnmoved` | src/core/namecache.ts:60-88 | A skip means the same valid pairs, and the chain holding at their heights what it held when the hashes were read |
| `NameCache.MovesOver` | src/core/names.ts:136-154 | Where the header hashes of the proof are still those read afterwards, the records and authors proven are those the chain then held |
| `NameCache.KeptToTip` | src/vendor/cairnx-spv.js:5016-5052 | A name backed at one tip is backed at every tip of no later epoch |
| `NameCache.SkipIsBacked` | src/core/names.ts:136-181 | With unmoved hashes and a cached epoch not past the proof's, a skip is as good as a full replay of the hints served now, on the chain and at the tip of the Confirm |
| `NameExample.UnsafeWhen` | src/core/names.ts:136-181 | A concrete name, views and entry for which the skip is granted and not backed, whenever a header moved or the tip entered a later epoch after the proof |
| `NameExample.UnsafeExactly` | src/core/names.ts:136-181 | For records at given heights, a granted skip that is not backed exists if and only if one of their header hashes moved between the proof and its reading, or the tip's epoch is past the proof's |
| `NameUnion.FetchNameUnion` | src/core/namespv.ts:100-126 | The union keeps the first hint of each txid served above the floor, with the conflict and disagreement flags |
| `NameUnion.UnionAdds` | src/core/namespv.ts:114-124 | A source can only add: every txid it serves is in the union, at its height unless sources conflict |
| `NameUnion.UnionHolds` | src/core/namespv.ts:100-126 | What counts as served: the hints, from height 29960 up, of the sources that answered |
| `NameUnion.ConflictsIff` | src/core/namespv.ts:114-124 | A conflict is two hints of one txid that no common whole height settles |
| `NameUnion.VerifyNameUnion` | src/core/namespv.ts:272-366 | The verdict over union, recovery and the fail-closed gates |
| `NameUnion.Recover` | src/core/namespv.ts:312-321 | Each source replayed alone, and whether all recovered addresses agree |
| `NameUnion.VerifiedIff` | src/core/namespv.ts:272-366 | A union is verified exactly when its replay proves an address no fill acquired and no source calls its records insufficient, or it is refused, two sources answer, some recover and none disagree |
| `NameUnion.VerifiedCarries` | src/core/namespv.ts:301-366 | What a verified answer carries, and exactly when it is flagged as disputed, recovered, or resting on a sole source |
| `NameUnion.UnverifiedBecause` | src/core/namespv.ts:272-366 | Which reason an unverified answer gives, and that only a corroborated lapse and a fill's acquisition are marked as such |
| `NameUnion.TrueNameVerifies` | src/core/namespv.ts:272-366 | Sources that serve a name's whole history, each record truly served, verify it |
| `NameUnion.VerifiedIsProven` | src/core/namespv.ts:272-366 | Whatever sources and node serve, a verified address is the resolver's, at the tip the replay read, from records the chain holds, neither pending, expired nor acquired by a fill: the union's, or on the recovered branch one source's own |
| `NameUnion.LapseIsCorroborated` | src/core/namespv.ts:289-300 | A confident lapse is the chain's and seen by two sources or at the earlier floor |
| `NameUnion.CleanIsProven` | src/core/namespv.ts:346-361 | A clean verdict carries the pairs of exactly the hints it was proven from |
| `NameUnion.ResolveName` | src/core/names.ts:31-94 | Which answer or refusal a send gets, exactly: a verified answer is the proven address, a served address is only ever unverified, and a proven lapse always refuses |
| `NameUnion.IsAddressIff` | src/core/names.ts:31-94 | An address is 0x and forty lower-case hex digits |
| `NameUnion.ResolveSend` | src/core/names.ts:31-112 | Fetch, verdict and answer together: what a send is told is verified is proven at the replay's own tip, a lapse it is told is confirmed is the chain's, seen twice, and a verdict that verifies is what it is told |
| `NameUnion.NameHints.Remember` | src/core/names.ts:136-154 | A verdict is cached exactly when it is clean, of the current endpoints, with a hash read at every height and an epoch: with the hashes read afterwards, whatever chain they are of, and the epoch of the tip read last |
| `NameUnion.NameHints.FinishConfirm` | src/core/names.ts:156-181 | A confirm skips exactly when pairs, hashes, epoch, age, claims and endpoints allow it, and then answers the cached address; under the two guards the chain of now backs it at the tip of now |
| `NameUnion.NameHints.ConfirmName` | src/core/names.ts:120-130 | A verified answer to a Confirm is proven anew or, from the fast path, backed under the guards |
| `NameUnion.NameHints.EndpointChanged` | src/core/wallet.ts:167-167 | An endpoint change empties the cache and voids running verifications |
| `SendConfirm.StepKeeps` | src/popup/popup-sendflow.ts:64-89 | Every click, resume, drop and outcome keeps the latch and snapshot invariants |
| `SendConfirm.RunKeeps` | src/popup/popup-sendflow.ts:64-89 | So does every run from an open popup |
| `SendConfirm.OneSubmissionEach` | src/popup/popup-sendflow.ts:64-89 | At most one submission is in flight, and no snapshot and no Confirm submits twice, over every interleaving across both flows |
| `SendConfirm.OnlyTheCurrentReview` | src/popup/popup-sendflow.ts:67-89 | A submission happens if and only if the snapshot is still the current one, its Confirm the latest, nothing is in flight and its name did not move |
| `SendConfirm.OnlyTheLatestReviewPrimes` | src/popup/popup-send.ts:83-107 | Of several Reviews waiting on their reads only the latest primes |
| `SendConfirm.PrimesWhatItRead` | src/popup/popup-send.ts:83-107 | The current Review freezes exactly what it read, under a new identity, and arms its own Confirm unless it is held or a submission is under way |
| `SendConfirm.ClickDisarms` | src/popup/popup-sendflow.ts:67-76 | A click that counts takes a generation and disarms its Confirm: a second click changes nothing |
| `SendConfirm.DroppedSubmitsNothing` | src/popup/popup-state.ts:19-25 | After the reviews are dropped nothing is submitted until a new one primes |
| `SendConfirm.Popup.RunConfirm` | src/popup/popup-sendflow.ts:67-76 | The click disarms Confirm and takes a generation before any await |
| `SendConfirm.Popup.Recheck` | src/popup/popup-sendflow.ts:76-89 | After the re-check: superseded, replaced, moved, or consumed and submitted |
| `SendConfirm.Popup.PrimeReview` | src/popup/popup-send.ts:83-107 | A review primes only while it is current, and arms Confirm unless held or submitting |
| `SendConfirm.Popup.Land` | src/popup/popup-sendflow.ts:84-89 | Every outcome ends the flight and tears the review down |
| `DappQueue.RunKeeps` | src/background.ts:193-297 | Over every run each request is in one place, the queue keeps its order, and sizes pass the caps only by requests put back |
| `DappQueue.ExactlyOnePlace` | src/background.ts:205-297 | Every queued request is in exactly one of queued, in flight and settled, and is settled at most once |
| `DappQueue.SettledForGood` | src/background.ts:205-297 | A settled request keeps its one outcome |
| `DappQueue.OutcomesAreDecided` | src/background.ts:205-297 | Over every run: what is in flight or answered was approved, what was rejected was rejected by its last decision, and an answer is the wallet's own |
| `DappQueue.RejectedIsRejected` | src/background.ts:226-229 | A rejected request is settled as rejected and never reaches the wallet |
| `DappQueue.WithoutOrdered` | src/background.ts:205-209 | Taking a request out keeps the order of the others |
| `DappQueue.HeadOrdered` | src/background.ts:193-199 | Putting a request back at the head keeps the order of the others |
| `DappQueue.Queue.RequeueFront` | src/background.ts:193-199 | Clearing and refilling the map puts the request first and the rest behind it in order |
| `DappQueue.Queue.QueueDappRequest` | src/background.ts:353-369 | A request is queued, behind the others, exactly when its method is known, fewer than 32 wait, and fewer than 5 of its origin |
| `DappQueue.Queue.ResolvePending` | src/background.ts:205-229 | An approval takes the request out of the queue and in flight and settles nothing; a rejection settles it as rejected and adds nothing in flight |
| `DappQueue.Queue.FillUnconfirmed` | src/background.ts:284-292 | An unconfirmed fill goes back to the head, or is settled when the window is gone |
| `DappQueue.Queue.WindowClosed` | src/background.ts:372-386 | Closing the approval window settles every queued request and no other |
| `DappQueue.ReservationAckFor` | src/background.ts:185-189 | An acknowledgement counts exactly for the request it names, as a transaction id |

## Left out

- SpvSources.Restore: the one-time migration of the legacy header snapshot and a session without a store are not modelled.
- LightClients.LightClient.IngestAll: proof of work, difficulty and the time window are one function value a header, not re-derived.
- HeaderStore.Store.Write: opening, upgrading and deleting the database are left out; a transaction commits or does not.
- ChunkAcquirer.Acquirer.Acquire: fetching a chunk page by page is one reply; the serializer around it is the chain of module Chains.
- SpvSources.SpvSource.Prepare: node tips are whole numbers or unknown; a fractional tip, which the source would round nowhere, is not modelled.
- FillScan.LiveFill: the synthesized give backing, the reported tip clamp and everything downstream of the source (`verifyFillSpv`, the fill preflight) are left out.
- FillScan.BindWindow: the pool's completion order is not modelled, since each height is bound on its own; memo maps are functions of their keys.
- HoldCounts.GuardedCountAtLeastHonest: "at least the honest count" is false without its guard, see the section above.
- FillScan.WindowScansAlike: the chain is what was mined under the header verified at each height when it was read; that all of them were one chain at one moment, with no reseed during the scan, is not part of this model.
- CoinSpend.Spender.MaxSendable: exact with unchanged replies, no cache expiry and no more than 2048 excluded coins, beyond which the source clears the whole cache map.
- CoinSpend.Spender.AssembleValueTx: ten percent of the inputs is integer division by ten, not a floating-point product; signing and submitting are left out.
- CoinVerify.MapLimit: a worker's network read is one atomic answer; timeouts are transient verdicts.
- Units.ParseFormat: amounts are decimal texts; the display helpers for CSD and served decimals are left out.
- Siwc.BuildSiwcMessage: the digest and `rfc3339` are left out; strings are UTF-16 code units.
- TxCodec.Serialize: `stableStringify` and script signatures' inner layout are left out.
- Seals.AcceptedSealIsRecoverable: preimage contents, their encryption and the lazy re-encryption of old records are left out; parked records do not survive a worker's death, as in the source.
- Seals.SealedClaims.RevealClaim: only the chained write-back is modelled, not the node's check that the commit is mined.
- Vault.QuietMeansSaved: sealing and key derivation are left out; a removal's password check is the choice of the moment it removes at.
- Vault.Wallet.RenameAccount: the trimming and cutting of a label is left out.
- Vault.ResetIsFinal: a new wallet being sealed while the reset runs is excluded; the lists and legacy keys a reset deletes are in `Vault.DoReset`, not in the runs.
- History.SettleList: the choice and number of status reads a pass makes is left out; what they answered is an input.
- History.RunHolds: rows parked in memory do not survive a worker's death, as in the source.
- Names.ReplayName: the wording of refusals is left out; the first cause is kept.
- NameUnion.FetchNameUnion: two sources with one base address are one source here.
- NameUnion.NameHints.FinishConfirm: that the cached address is backed rests on two guards the source does not check, see the section above.
- NameUnion.ResolveSend: each replay sees one chain, but the union's and each source's own may see different ones; the legacy wording of `via`, `owner` and `depth` in the answer is left out.
- SendConfirm.OneSubmissionEach: a review can only be started from its own open sheet, as the page's layout has it; the name actions, which keep a snapshot of their own, and all drawing are left out.
- DappQueue.Queue.ResolvePending: what the wallet does with an approved request is one answer; consent writes, the badge and raising the window are left out.
- Reverse lookups, market data, explorer links, endpoint settings, events to pages, the content script, account export, the brute-force guard, layouts and copy text are not part of this model.
