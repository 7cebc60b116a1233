# Aegylax: a Dafny model

Aegylax is a game of interception played against an escrow contract. Players put up bounties, take seats, buy
reconnaissance, lock one Defense Point each, and split the pool of an attack they stop. This project models the
emulator of that contract, the geometry that judges a Defense, the event folds behind the public records, and the
smaller codecs around them, and proves what the code's own comments promise of them.

| files | what they model |
|---|---|
| `EmulatorState`, `GameContract` | the contract's state and every transition as functions: lazy settlement, reads' side effects, every write with its refusals |
| `Sums`, `Accounting`, `RoomMoves`, `RoomHistory`, `Jackpot`, `Solvency`, `Runs` | what each room owes, the invariant over every run, the exact escrow equation |
| `Entitlements`, `Wallets`, `Draws`, `LazySettlement`, `Timetable`, `Redaction`, `NonInterference`, `PhaseGuards` | theorems about the contract: drains, every wallet's balance, jackpot, lazy against eager over visits and over whole runs, non-interference of a read and of whole histories, screen guards |
| `EmulatorClient` | the client object: fields updated in place, loops, each method proved against `GameContract` |
| `World`, `Interception`, `SpaceGrid` | geometry over exact reals, judging and ranking, the two screen orientations |
| `Epochs` (with `GlobalDefense`) | epoch and draw schedules |
| `EventLog`, `PlayerLedger`, `LobbyDirectory`, `IndexerService` | the event folds and the windowed reader |
| `Sealing`, `Faucet`, `Options`, `Numbers` | the sealed envelope, the faucet's interleaved calls, a value that may be absent, larger and smaller |

How the source is read:

- Money is in whole wei and a division of it floors, so what a tie cannot divide is real dust. The source computes in
  floating ether with a 1e-12 tolerance, which the model does not have.
- A lobby, its ledger, participants, attack and sealed data are one `Room`: every key of the source's maps starts with
  the lobby id. A transaction hash is the transaction counter, which is what makes it fresh; a write draws its hash and
  is applied in one step, so rooms are visited in the order of their hashes.
- "Protocol cannot pay" is a flag that is proved never to be set, rather than an exception.
- The key of a sealed request is a number and the envelope opens under that key only; the codec itself is `Sealing`.
- Assumed of the configuration: no wallet's address is the protocol's escrow account, epochs and block times are
  positive, prices and minimum pools are not negative, and the protocol's epoch length is the client's.
- `applyJoinLobby` does not look for an existing seat. The model keeps that: a second join replaces the first record,
  and `ExactIffNoSeatOverwritten` says exactly when this shows.
- The mint escrows the value sent, not the cost; the surplus is a term of its own.
- The published transition table lacks ACTIVE to CANCELLED, which the code takes when nobody acted; the model follows
  the code (`StepsAgainstTheTable`).
- `Math.sqrt` is any function that returns the non-negative root of every non-negative real; distances are compared
  squared, so the interception radius and Earth's radius are taken not to be negative.

## Model

| member | source | states |
|---|---|---|
| `Runs.EscrowIsExact` | frontend/src/blockchain/EmulatorBlockchainClient.ts:2010-2041 | After any run of blocks, reads and wallet writes from genesis the escrow balance is, to the wei, every room's liability plus the draw pool, the creation fees with the mint surplus, and the strays of repeated joins; "Protocol cannot pay" was never reached, no balance is negative, and balances as a whole grow only by opening accounts |
| `Runs.ExactIffNoSeatOverwritten` | frontend/src/blockchain/EmulatorBlockchainClient.ts:739-786 | The equation holds without a stray term if and only if no room that refunds ever had a seated wallet, with something paid, join it again |
| `Runs.RejoiningStrands` | frontend/src/blockchain/EmulatorBlockchainClient.ts:739-786 | A concrete four-step run in which joining does not look for an existing seat: the wallet pays twice, is refunded once, and ten wei are owed to nobody |
| `Runs.RunKeeps` | frontend/src/blockchain/EmulatorBlockchainClient.ts:374-571 | Every run keeps the invariant (books, rest, draws, jackpot), drops nothing, and orphans in each room exactly what joins into it overwrote |
| `Runs.NextKeeps` | frontend/src/blockchain/EmulatorBlockchainClient.ts:374-571 | One step of any kind - a block, a read, a write, confirmed or refused - keeps the invariant and every final fact, and orphans fees only by a repeated join |
| `Runs.LifecycleMovesForward` | frontend/src/blockchain/EmulatorBlockchainClient.ts:1101-1178 | Over any run a lobby only moves forward on the terms it was minted on: its team is fixed once applications close, its attack is never rescheduled nor its path redrawn, attempts are only added, outcome and reveal are final, an ended room changes only in payout flags and markers and the reveal, and seats never exceed the limit |
| `Runs.CreateKeeps` | frontend/src/blockchain/EmulatorBlockchainClient.ts:573-630 | Minting adds one room backed by exactly what the transaction carried, and a refused mint changes nothing |
| `Runs.JoinKeeps` | frontend/src/blockchain/EmulatorBlockchainClient.ts:739-786 | Joining keeps the books whether or not the wallet was seated, and orphans exactly what a replaced record had paid |
| `Runs.LeaveKeeps` | frontend/src/blockchain/EmulatorBlockchainClient.ts:801-828 | Leaving an open room pays back what the seat paid and leaves every other room, and the invariant, alone |
| `Runs.BuyKeeps` | frontend/src/blockchain/EmulatorBlockchainClient.ts:830-869 | Buying a probe backs the room with its price and keeps the invariant |
| `Runs.PrivateActionKeeps` | frontend/src/blockchain/EmulatorBlockchainClient.ts:890-916 | A probe or a Defense, accepted or refused, moves no money and keeps one attempt per seat |
| `Runs.RevealKeeps` | frontend/src/blockchain/EmulatorBlockchainClient.ts:1793-1829 | Publishing a resolved path, once, keeps the invariant |
| `Runs.ClaimRewardKeeps` | frontend/src/blockchain/EmulatorBlockchainClient.ts:1586-1645 | A reward claim, accepted or refused, keeps the invariant and touches one room |
| `Runs.ClaimRefundKeeps` | frontend/src/blockchain/EmulatorBlockchainClient.ts:1659-1701 | A refund claim, accepted or refused, keeps the invariant and touches one room |
| `Runs.SettleCreatorKeeps` | frontend/src/blockchain/EmulatorBlockchainClient.ts:1725-1780 | A settlement keeps the invariant even where it raises the flag and then refuses for want of anything to settle |
| `Runs.SettleEverythingKeeps` | frontend/src/blockchain/EmulatorBlockchainClient.ts:379-402 | The reads that settle every room, return unplayed bounties and mint a due draw keep the invariant |
| `Runs.MineKeeps` | frontend/src/blockchain/EmulatorBlockchainClient.ts:1991-2003 | Mining keeps the invariant: the top-up finds nothing to fold and an opening draw is backed by nothing |
| `Runs.GenesisIsSound` | frontend/src/blockchain/emulatorState.ts:167-200 | A fresh chain satisfies the invariant |
| `Accounting.EscrowCovers` | frontend/src/blockchain/EmulatorBlockchainClient.ts:2029-2041 | In a sound state the escrow covers any one room's backing with the draw pool beside it, so no single payout can be short |
| `Accounting.BackingCovers` | frontend/src/blockchain/EmulatorBlockchainClient.ts:1185-1227 | No sound room owes or retains a negative amount, and no seat is owed more than the room owes its seats |
| `Accounting.EscrowMoves` | frontend/src/blockchain/EmulatorBlockchainClient.ts:2020-2027 | Money into the protocol is a transfer: the payer and the escrow move by the same amount and the total does not |
| `Accounting.PayOutMoves` | frontend/src/blockchain/EmulatorBlockchainClient.ts:2030-2041 | Money out is a transfer: escrow and payee move by the amount, nobody else, and the total does not |
| `RoomMoves.JoinedBalances` | frontend/src/blockchain/EmulatorBlockchainClient.ts:745-783 | A join raises a sound room's backing by exactly the join cost |
| `RoomMoves.LeftBalances` | frontend/src/blockchain/EmulatorBlockchainClient.ts:809-825 | A leave lowers it by exactly what the seat had paid: entry, commission and probes each come off their own line |
| `RoomMoves.BoughtBalances` | frontend/src/blockchain/EmulatorBlockchainClient.ts:850-859 | A probe purchase raises it by the price and stays refundable |
| `RoomMoves.UnfilledBalances` | frontend/src/blockchain/EmulatorBlockchainClient.ts:1113-1125 | Calling an unfilled room off turns what it held for play into refunds of the same total |
| `RoomMoves.ActivatedBalances` | frontend/src/blockchain/EmulatorBlockchainClient.ts:1142-1172 | Starting a room makes entry fees part of the reward and adds only what the pool gave |
| `RoomMoves.RefundedBalances` | frontend/src/blockchain/EmulatorBlockchainClient.ts:1186-1199 | One seat's refund lowers the backing by exactly what that seat paid |
| `RoomMoves.SettledBalances` | frontend/src/blockchain/EmulatorBlockchainClient.ts:1716-1780 | Settling lowers it by exactly the creator's due |
| `RoomMoves.ClaimedBalances` | frontend/src/blockchain/EmulatorBlockchainClient.ts:1614-1617 | A reward claim lowers it by exactly the winner's share |
| `RoomMoves.VerdictNamesDefenders` | frontend/src/blockchain/EmulatorBlockchainClient.ts:1479-1489 | The verdict names distinct seated defenders who acted, and stops the attack if and only if it names one |
| `RoomMoves.ConcludedWon` | frontend/src/blockchain/EmulatorBlockchainClient.ts:1495-1559 | On a win the whole reward pool stays owed: the equal shares never exceed it and the dust is the creator's |
| `RoomMoves.ConcludedMissed` | frontend/src/blockchain/EmulatorBlockchainClient.ts:1538-1552 | On a miss the backing falls by exactly the reward pool, which is forfeited |
| `RoomMoves.ConcludedUnplayed` | frontend/src/blockchain/EmulatorBlockchainClient.ts:1532-1537 | A round nobody acted in is called off and owes back all it held |
| `RoomMoves.ConcludedBalances` | frontend/src/blockchain/EmulatorBlockchainClient.ts:1465-1575 | Whatever the verdict, the room stays sound and its backing falls by exactly what it forfeits |
| `Solvency.PayoutUnplayedKeeps` | frontend/src/blockchain/EmulatorBlockchainClient.ts:1185-1227 | Paying an unfilled room out - every seat in order, then the bounty - keeps the escrow exact |
| `Solvency.RefundSeatsKeeps` | frontend/src/blockchain/EmulatorBlockchainClient.ts:1186-1199 | After the refund loop every listed seat that paid anything is refunded, once, and the books balance |
| `Solvency.SettleKeeps` | frontend/src/blockchain/EmulatorBlockchainClient.ts:1101-1178 | Settling a room, whatever it finds, keeps the invariant and touches no other room |
| `Solvency.TopUpIsIdle` | frontend/src/blockchain/EmulatorBlockchainClient.ts:1250-1279 | READY is never a state at rest, so folding the pool into a minted draw never moves money |
| `Solvency.StepsAgainstTheTable` | frontend/src/blockchain/EmulatorBlockchainClient.ts:1101-1178 | Closing applications and starting only take steps of the published transition table; the verdict takes one it lacks, ACTIVE to CANCELLED, if and only if nobody acted |
| `RoomHistory.StartingSchedules` | frontend/src/blockchain/EmulatorBlockchainClient.ts:1396-1437 | The attack a started room gets flies in its bound epoch, at least the 90% cushion after a block deadline whenever the start was noticed, and lands on the next epoch boundary |
| `RoomHistory.MintingBinds` | frontend/src/blockchain/EmulatorBlockchainClient.ts:611-614 | A lobby minted with a block deadline is bound at once to the epoch that respects the cushion |
| `Entitlements.FinishedRoomDrains` | frontend/src/blockchain/EmulatorBlockchainClient.ts:1586-1780 | A finished room drains exactly: taken plus still claimable plus forfeited is all that was put in play, less only what repeated joins orphaned |
| `Entitlements.NothingOwedIff` | frontend/src/blockchain/EmulatorBlockchainClient.ts:1586-1780 | A finished room owes nothing if and only if no seat and no creator is owed anything |
| `Entitlements.QuoteIsTheEntitlement` | frontend/src/blockchain/EmulatorBlockchainClient.ts:1357-1370 | The settlement a lobby read quotes is the creator's entitlement, paid or unpaid, and zero before the end |
| `Entitlements.RewardAcceptedIffOwed` | frontend/src/blockchain/EmulatorBlockchainClient.ts:1590-1612 | The chain of reward checks passes if and only if the claim names the resolved attack and the seat is owed a reward |
| `Entitlements.ClaimRewardPays` | frontend/src/blockchain/EmulatorBlockchainClient.ts:1586-1645 | A reward claim is confirmed exactly when the seat is owed; it pays the seat's due and the author's with it, to nobody else, and leaves neither owed |
| `Entitlements.ClaimRefundPays` | frontend/src/blockchain/EmulatorBlockchainClient.ts:1659-1701 | A refund is confirmed exactly when the round never ran and something is owed; it pays all of it and leaves nothing owed |
| `Entitlements.SettleCreatorPays` | frontend/src/blockchain/EmulatorBlockchainClient.ts:1725-1780 | A settlement is confirmed exactly when the room ended, the caller may, and the creator is owed; it pays exactly the quoted amount, or returns a draw's to the pool |
| `Entitlements.PaidOnceOnly` | frontend/src/blockchain/EmulatorBlockchainClient.ts:1586-1780 | Over any run after a room ended no entitlement changes, one that was taken is never due again, and what leaves the room is what its liability falls by |
| `Entitlements.RewardExcludesRefund` | frontend/src/blockchain/EmulatorBlockchainClient.ts:1659-1669 | A room that ever pays a reward never afterwards pays a refund, and the other way round |
| `Entitlements.WonShares` | frontend/src/game/economics.ts:103-106 | Equal shares times the winners never exceed the reward pool, and what they leave is less than one wei per winner |
| `Wallets.EveryWalletAddsUp` | frontend/src/blockchain/EmulatorBlockchainClient.ts:573-1780 | After any run every wallet's balance is, to the wei, what it opened with, less what it put into every room by seats and mints, plus what it took of its entitlements there, less only what its own repeated joins wiped off its records |
| `Wallets.NextAdds` | frontend/src/blockchain/EmulatorBlockchainClient.ts:374-571 | One step of any kind moves every wallet's balance by exactly what it moves that wallet's records by, and by a repeated join of its own |
| `Wallets.UnplayedPaysEverybody` | frontend/src/blockchain/EmulatorBlockchainClient.ts:1185-1227 | Paying an unfilled room out raises each wallet's balance by exactly what its unrefunded seat had paid, the author's by the unsettled bounty, and nobody else's |
| `Wallets.RefundSeatsAdd` | frontend/src/blockchain/EmulatorBlockchainClient.ts:1186-1199 | The refund loop credits each wallet what it marks its seat refunded for, whatever list it runs over |
| `Draws.JackpotIsConserved` | frontend/src/blockchain/EmulatorBlockchainClient.ts:1142-1173 | After any run the draw pool, the stakes of draws still running or called off and unsettled, and what draw winners won add up to what was ever forfeited for the first time - a missed draw's own stake not counted again - and the dust settled draws gave back, which is less than a wei per winner; none of them is negative, every stake is covered by its own room's liability, and no draw holds one before it starts |
| `Draws.PoolFallsOnlyToADraw` | frontend/src/blockchain/EmulatorBlockchainClient.ts:1154-1165 | Over any run from a sound state the pool falls by no more than what the draws that left OPEN for play in that run took, and not at all if none did; calling a draw off feeds nothing |
| `Draws.UnstartedHoldsNothing` | frontend/src/blockchain/EmulatorBlockchainClient.ts:641-737 | A draw that has not started - open, or called off unfilled - has taken nothing from the pool |
| `Draws.TermFallsOnlyAtStart` | frontend/src/blockchain/EmulatorBlockchainClient.ts:1153-1166 | A room's contribution to the pool only ever falls when it is a draw whose attack gets scheduled, and then by at most what it took |
| `Draws.OneDrawPerEpoch` | frontend/src/blockchain/EmulatorBlockchainClient.ts:641-648 | In every reachable state each draw is bound to an interval epoch, no two to the same one, and no room waits at READY |
| `Draws.NoDrawIsLeftDue` | frontend/src/blockchain/EmulatorBlockchainClient.ts:1237-1242 | A block, or a read of the statistics or the draw, leaves no draw due: in an open window with money in the pool the draw exists, and nobody's own opening write would be taken |
| `Draws.AnybodyOpensIffDue` | frontend/src/blockchain/EmulatorBlockchainClient.ts:641-677 | The opening write, from anybody, is confirmed if and only if the ticker would open the draw itself |
| `LazySettlement.LazyRefinesEager` | frontend/src/blockchain/EmulatorBlockchainClient.ts:1095-1178 | A player's lobby with a block deadline, however often it was looked at on the way, ends with the same status, ending, epoch, launch and impact, seats, books, balances, pool, winners and reward as if looked at only now; a path once drawn is the same path |
| `LazySettlement.SettleTwice` | frontend/src/blockchain/EmulatorBlockchainClient.ts:1101-1178 | Settling at one block and again at a later one is settling at the later one |
| `LazySettlement.SettlingAgainChangesNothing` | frontend/src/blockchain/EmulatorBlockchainClient.ts:1101-1178 | Settling twice at one block and time moves nothing the second time, for any room |
| `Timetable.AnyRunIsOnTime` | frontend/src/blockchain/EmulatorBlockchainClient.ts:1095-1178 | After any run of writes, reads and blocks by anybody on any rooms, a lobby with a block deadline, once looked at, has exactly the status, ending, epoch, launch, impact and attack status its terms, team and the block dictate, and the verdict and share of its own attempts on its own path: when anybody looked before leaves no trace |
| `Timetable.HistoriesAgree` | frontend/src/blockchain/EmulatorBlockchainClient.ts:1095-1178 | Two whole histories, with reads anywhere and other rooms treated differently, agree on a lobby with the same terms and team that was acted in in both or neither: status, ending, epoch and attack; and on its verdict and winners where path and Defenses are the same |
| `Timetable.NextKeepsTime` | frontend/src/blockchain/EmulatorBlockchainClient.ts:374-571 | One step of any kind keeps every room no further than its block allows, every verdict that of the room's attempts, and every point on file |
| `Timetable.SettledRoomIsDue` | frontend/src/blockchain/EmulatorBlockchainClient.ts:1101-1178 | A settled room of a sound, timely state is exactly where its terms and the block put it |
| `Timetable.DefensesAreNeverOverwritten` | frontend/src/blockchain/EmulatorBlockchainClient.ts:1060-1091 | No later step of any run replaces or removes a Defense Point once it is on file |
| `Redaction.ReadsRevealNoCoordinate` | frontend/src/blockchain/EmulatorBlockchainClient.ts:374-493 | Two reachable states that differ only in an undecided attack's sealed path and in other wallets' Defense Points answer every read by a viewer identically, and stay that way |
| `Redaction.OthersDefenseIsInvisible` | frontend/src/blockchain/EmulatorBlockchainClient.ts:1016-1091 | Whichever point another wallet's accepted envelope held, the states it leaves differ only in what is sealed from the viewer |
| `Redaction.SettleEverythingIsBlind` | frontend/src/blockchain/EmulatorBlockchainClient.ts:379-402 | The settling reads treat two such states alike, room by room, and keep them alike |
| `Redaction.AnswersAreBlind` | frontend/src/blockchain/EmulatorBlockchainClient.ts:1840-1913 | Out of two such settled states every answer - participants, map, attempts, reveal, lobby, statistics - is the same |
| `Redaction.StatsAddUp` | frontend/src/blockchain/emulatorState.ts:237-320 | Intercepted, missed and undecided attacks add up to the attacks there were, none negative, and nothing in flight counts as an impact |
| `NonInterference.HistoriesRevealNoCoordinate` | frontend/src/blockchain/EmulatorBlockchainClient.ts:374-571 | Two histories alike but for where other wallets placed their sealed Defenses, from states the viewer cannot tell apart: until a room that differs lands, every read answers the viewer the same, and clock, balances, pool, draws, seats, ledgers and statuses are the same |
| `NonInterference.SealedFromGenesis` | frontend/src/blockchain/EmulatorBlockchainClient.ts:374-571 | From genesis, whatever other wallets sealed, no read tells it to the viewer before impact |
| `NonInterference.NextIsBlind` | frontend/src/blockchain/EmulatorBlockchainClient.ts:497-571 | One step of any kind - with another wallet's Defense placed elsewhere - keeps two such states indistinct, unless a room that differs lands at that block |
| `NonInterference.ActionIsBlind` | frontend/src/blockchain/EmulatorBlockchainClient.ts:890-957 | An envelope is accepted or refused for the same reason in both, and leaves them differing only in what is sealed from the viewer |
| `PhaseGuards.DefenseControlIsTheGuard` | frontend/src/game/lobbyPhase.ts:243-277 | In any sound state, settled as a read leaves it, the Send Defense control is live if and only if the protocol would accept that Defense, wherever on the grid it is placed |
| `PhaseGuards.ReconControlIsTheGuard` | frontend/src/game/lobbyPhase.ts:396-413 | In any sound state, settled as a read leaves it, the Recon control is live if and only if the protocol would accept that probe |
| `PhaseGuards.PurchaseControlVersusGuard` | frontend/src/game/lobbyPhase.ts:374-385 | Whatever the purchase control offers is sold; the emulator sells what is not offered exactly while the attack is in flight |
| `PhaseGuards.ActivePhaseIff` | frontend/src/game/lobbyPhase.ts:48-140 | The phase reads ATTACK ACTIVE exactly when the room's attack has launched and not landed |
| `PhaseGuards.LockedIffAttempted` | frontend/src/hooks/useOperation.ts:107-109 | A seat is locked by a Defense exactly when its attempt is on file |
| `EmulatorClient.EmulatorBlockchainClient.constructor` | frontend/src/blockchain/EmulatorBlockchainClient.ts:275-295 | A new client is a fresh, sound chain |
| `EmulatorClient.EmulatorBlockchainClient.Charge` | frontend/src/blockchain/EmulatorBlockchainClient.ts:2020-2027 | Debits in place what the escrow transfer says, or refuses and leaves every balance |
| `EmulatorClient.EmulatorBlockchainClient.Pay` | frontend/src/blockchain/EmulatorBlockchainClient.ts:2030-2041 | Credits in place what the payout transfer says |
| `EmulatorClient.EmulatorBlockchainClient.PayUnplayed` | frontend/src/blockchain/EmulatorBlockchainClient.ts:1185-1227 | The refund loop and the bounty's return, in place, are the specified payout |
| `EmulatorClient.EmulatorBlockchainClient.Start` | frontend/src/blockchain/EmulatorBlockchainClient.ts:1142-1173 | Starting, in place, is the specified activation: pool, ledger, terms, attack and path |
| `EmulatorClient.EmulatorBlockchainClient.Resolve` | frontend/src/blockchain/EmulatorBlockchainClient.ts:1465-1575 | Judging, recording, forfeiting and entitling, in place, is the specified conclusion with its top-up |
| `EmulatorClient.EmulatorBlockchainClient.Advance` | frontend/src/blockchain/EmulatorBlockchainClient.ts:1440-1451 | Launch and impact are noticed in place as specified |
| `EmulatorClient.EmulatorBlockchainClient.Settle` | frontend/src/blockchain/EmulatorBlockchainClient.ts:1101-1178 | Lazy settlement in place is the specified settlement |
| `EmulatorClient.EmulatorBlockchainClient.OpenDrawRoom` | frontend/src/blockchain/EmulatorBlockchainClient.ts:641-737 | Opens the draw or names the first guard that refuses, as specified |
| `EmulatorClient.EmulatorBlockchainClient.OpenDrawIfDue` | frontend/src/blockchain/EmulatorBlockchainClient.ts:1237-1242 | The keeper mints exactly when due and never meets a refusal |
| `EmulatorClient.EmulatorBlockchainClient.SettleDraws` | frontend/src/blockchain/EmulatorBlockchainClient.ts:1309-1327 | The loop over rooms returns every unplayed draw's bounty, as specified |
| `EmulatorClient.EmulatorBlockchainClient.WriteContract` | frontend/src/blockchain/EmulatorBlockchainClient.ts:497-571 | Any wallet's write leaves the chain the contract specifies, with the reason when refused, and a sound client that was never short |
| `EmulatorClient.EmulatorBlockchainClient.MineBlock` | frontend/src/blockchain/EmulatorBlockchainClient.ts:1991-2003 | One block leaves the chain specified, and a sound client that was never short |
| `EmulatorClient.EmulatorBlockchainClient.ReadContract` | frontend/src/blockchain/EmulatorBlockchainClient.ts:367-493 | Any read settles what it must, answers what is specified, and leaves a sound client |
| `EmulatorClient.EmulatorBlockchainClient.RunReconProbe` | frontend/src/blockchain/EmulatorBlockchainClient.ts:932-1004 | A probe is refused for the specified first reason or spends one probe of this seat and nothing else |
| `EmulatorClient.EmulatorBlockchainClient.RunDefenseSubmit` | frontend/src/blockchain/EmulatorBlockchainClient.ts:1016-1091 | A Defense is refused for the specified first reason or locks this seat and files one sealed point |
| `EmulatorClient.MarkPending` | frontend/src/blockchain/EmulatorBlockchainClient.ts:1556-1559 | The loop entitles exactly the seated winners and changes no other seat |
| `EmulatorClient.CountRooms` | frontend/src/blockchain/emulatorState.ts:242-302 | The counting loops give the sizes of the sets of active, intercepted and in-flight rooms |
| `World.WorldRoundTrip` | frontend/src/game/world.ts:156-173 | A point of the plane becomes a valid sector and fractions inside it, and comes back unchanged if and only if it lay on the closed field |
| `World.FirstEntryIsExact` | frontend/src/game/world.ts:370-398 | Entry is reported if and only if some fraction of the segment lies within the radius, and the reported one is the least such fraction |
| `World.ClosestApproachIsMinimum` | frontend/src/game/world.ts:355-363 | The reported fraction lies on the segment and no other fraction of it is nearer |
| `World.EntryIffClosestWithin` | frontend/src/game/world.ts:355-398 | A path enters a circle if and only if its closest approach is within the radius |
| `Interception.HitPassesChordTest` | frontend/src/game/defense.ts:247-270 | Every snapshot hit also passes the chord test, with an entry no later than the hit |
| `Interception.SpatialMissOfACrossedCircle` | frontend/src/game/defense.ts:272-318 | An attempt whose circle the path crosses is filed as a spatial miss if and only if the entry falls on its own submit block without the snapshot hitting - entry at the target, submitted at impact |
| `Interception.ExactlyOneClass` | frontend/src/game/defense.ts:14-49 | Every opened attempt ends as exactly one of winner, already down, too early, too late, spatial miss |
| `Interception.WinnersAreEarliestHits` | frontend/src/game/defense.ts:357-396 | The winners are exactly the hits at the minimum submit block; the attack is stopped if and only if there is a hit; all share the published point and progress |
| `Interception.ResolutionIgnoresOrder` | frontend/src/game/defense.ts:343-397 | Permuting the attempts changes nothing but the order winners are listed in: not whether, where or when the attack is stopped, not who wins, not how many share |
| `Interception.LaterAttemptChangesNothing` | frontend/src/game/defense.ts:373-378 | An attempt submitted after the kill block, anywhere in the list, leaves the resolution unchanged |
| `Interception.ResolveAttackDefenses` | frontend/src/game/defense.ts:343-397 | The filtering, marking and re-labelling loops compute the specified resolution and every attempt's final record |
| `Interception.EarliestBlock` | frontend/src/game/defense.ts:373-376 | The kill block is one of the hits' submit blocks and no hit is earlier |
| `Epochs.LaunchEpochIsLeast` | frontend/src/game/epochs.ts:41-51 | The launch epoch is the least epoch starting at least max(1, 90% of an epoch) after the deadline, and that start is less than an epoch and the cushion away |
| `Epochs.LaunchEpochIsMonotone` | frontend/src/game/epochs.ts:41-51 | A later deadline never launches in an earlier epoch |
| `Epochs.EpochEncloses` | frontend/src/game/epochs.ts:10-20 | A block is in exactly the epoch whose start and end enclose it |
| `Epochs.NextAttackIsTheNextBoundary` | frontend/src/game/epochs.ts:66-69 | The next attack block is the first epoch boundary after the block, at most an epoch away |
| `GlobalDefense.NextDrawIsNext` | frontend/src/game/globalDefense.ts:128-143 | The next draw epoch is the interval multiple strictly after the current epoch and at most an interval away |
| `GlobalDefense.SuccessiveWindowsAreDisjoint` | frontend/src/game/globalDefense.ts:102-143 | No block is in two successive join windows; the later window opens at or after the earlier draw's launch boundary if and only if the interval spans at least two blocks |
| `EventLog.KeyIgnoresCase` | api/indexer/ledger.ts:117-121 | Two spellings of one wallet are one key, a key is its own key, and different wallets have different keys |
| `PlayerLedger.PlayerLedger.Apply` | api/indexer/ledger.ts:158-232 | Folding one more event into the bounded state gives, for every wallet, the record the whole unbounded log defines: rounds, interceptions, streaks, last twelve, counters, first and last block |
| `PlayerLedger.PlayerLedger.ApplyWinnerDetermined` | api/indexer/ledger.ts:248-281 | A verdict scores everyone seated once, unless the round was cancelled, and empties the seats |
| `PlayerLedger.PlayerLedger.RecordFor` | api/indexer/ledger.ts:291-305 | What is answered about an address in any spelling is what the whole log defines, or a blank record |
| `PlayerLedger.RecordStep` | api/indexer/ledger.ts:234-281 | The record of a longer log follows from the record of the shorter one and the event alone |
| `PlayerLedger.ScoreStep` | api/indexer/ledger.ts:268-279 | Count, trailing run, longest run and last twelve of a history one round longer follow from those of the shorter one |
| `PlayerLedger.SeatedMeans` | api/indexer/ledger.ts:135-145 | Seated means it sat down at some point of the log and nothing since got it up: not leaving, not a cancellation, not a verdict |
| `PlayerLedger.TrailingRunIsMaximal` | api/indexer/ledger.ts:39-40 | The current streak is the longest run of wins that reaches the latest round |
| `PlayerLedger.LongestRunIsLongest` | api/indexer/ledger.ts:41-42 | The best streak is the length of some run of wins and no run is longer |
| `PlayerLedger.CountTrueCounts` | api/indexer/ledger.ts:37-38 | Interceptions number the rounds that were won |
| `LobbyDirectory.LobbyDirectory.Apply` | api/indexer/lobbies.ts:159-276 | Folding one more event keeps rows, their order and the wallet index what the whole log defines |
| `LobbyDirectory.LobbyDirectory.Enrich` | api/indexer/lobbies.ts:286-309 | A contract read changes one row's enriched figures and nothing events define; only a draw takes a bounty |
| `LobbyDirectory.LobbyDirectory.RowsAreTheOpened` | api/indexer/lobbies.ts:159-233 | The rows are the lobbies the log opened, each once, in the order they were first opened, and no other |
| `LobbyDirectory.LobbyDirectory.ListIsTheDirectory` | api/indexer/lobbies.ts:346-355 | Search, tab and sort keep exactly the matching lobbies of the log, each once, newest first, ties in opening order |
| `LobbyDirectory.ListedPicks` | api/indexer/lobbies.ts:346-354 | Search and tab keep exactly the rows that answer both, each as often as it was there and in its order |
| `LobbyDirectory.LobbyDirectory.PagesListEachOnce` | api/indexer/lobbies.ts:357-359 | Turning uncapped pages lists every matching lobby of the log exactly once, newest first |
| `LobbyDirectory.LobbyDirectory.List` | api/indexer/lobbies.ts:334-360 | The page, total and counts are those of the list of every lobby the log opened that matches the query and the tab: each exactly once, no other, newest first, ties in the order they were opened; the total is the count of the tab and the four tabs sum to all |
| `LobbyDirectory.PagesCoverIff` | api/indexer/lobbies.ts:357-359 | Turning pages of any positive size gives the whole list, each row once and in order, if and only if a page is within the 200-row cap or the list is; otherwise rows are lost |
| `LobbyDirectory.NewestFirstSorts` | api/indexer/lobbies.ts:353-355 | The list is a stable sort by creation block, newest first |
| `LobbyDirectory.StatusesSumToAll` | api/indexer/lobbies.ts:406-413 | The four statuses sum to all rows |
| `LobbyDirectory.Tally` | api/indexer/lobbies.ts:406-413 | The counting loop gives each status's number of rows, and they sum to all |
| `LobbyDirectory.LobbyDirectory.ForPlayer` | api/indexer/lobbies.ts:370-389 | Through the index a wallet reaches exactly the lobbies whose events named it as creator or joiner, newest first and none twice: all the live ones, and of the past ones all or the twelve newest |
| `LobbyDirectory.LobbyDirectory.HasLiveDraw` | api/indexer/lobbies.ts:312-316 | True if and only if, by the log alone, some lobby was named a draw after it was last opened and still takes applications or plays; contract reads cannot make or unmake one |
| `LobbyDirectory.DrawMeans` | api/indexer/lobbies.ts:165-206 | A bounty marks exactly the lobbies the log named draws since it last opened them |
| `LobbyDirectory.LinkedIsOpened` | api/indexer/lobbies.ts:375-377 | Every lobby the index names exists, so the lookup filter drops nothing |
| `IndexerService.IndexerService.Sweep` | api/indexer/indexer.service.ts:177-211 | One sweep, failing at any window or none, keeps both folds equal to folding the blocks behind the cursor once in order; the cursor never goes back nor passes the confirmed head, and reaches it when nothing fails |
| `IndexerService.IndexerService.Ticks` | api/indexer/indexer.service.ts:159-211 | So do any number of ticks with any failures; every loop terminates |
| `IndexerService.IndexerService.Fold` | api/indexer/indexer.service.ts:297-317 | One window is folded into both, each log once, in the chain's order |
| `IndexerService.IndexerService.ReadWindow` | api/indexer/indexer.service.ts:193-198 | A window that came back is folded and only then passed; the cursor moves by at least a block |
| `IndexerService.IndexerService.RecordFor` | api/indexer/indexer.service.ts:125-131 | What is answered depends on the folded blocks only, not on windows or failures, and says through which block |
| `IndexerService.WindowsJoin` | api/indexer/indexer.service.ts:193-196 | Where a stretch of blocks is cut into windows does not matter |
| `Sealing.UnsealInvertsSeal` | frontend/src/game/sealing.ts:111-137 | For every keystream and tag, a payload is sealed if and only if it is at most 2046 bytes, then opens byte for byte, and its body is always 4096 hex digits |
| `Sealing.PaddingClaimsThePayload` | frontend/src/game/sealing.ts:161-171 | The padded body is always 2048 bytes and its prefix reads back the payload |
| `Sealing.StreamedTwice` | frontend/src/game/sealing.ts:178-186 | Sealing and opening are the same pass: the keystream applied twice is nothing |
| `Sealing.HexPairs` | frontend/src/game/sealing.ts:208-219 | The hex codec inverts itself on every byte string |
| `Sealing.BodyHasNoPrefix` | frontend/src/game/sealing.ts:214-215 | A body is never mistaken for a prefixed string |
| `Sealing.PadToBody` | frontend/src/game/sealing.ts:161-171 | The buffer loop writes the specified padded body, or refuses |
| `Sealing.XorWithKeystream` | frontend/src/game/sealing.ts:178-186 | The chunked loops apply byte i of the stream to byte i of the input |
| `Sealing.HexToBytes` | frontend/src/game/sealing.ts:214-219 | The decoding loop parses every pair, after a prefix if there is one |
| `Sealing.BytesToHex` | frontend/src/game/sealing.ts:208-212 | The encoding loop writes two digits per byte |
| `Sealing.Seal` | frontend/src/game/sealing.ts:111-116 | The buffer passes compose to the specified envelope |
| `Sealing.Unseal` | frontend/src/game/sealing.ts:126-137 | The buffer passes compose to the specified opening, refusing a wrong key before decoding |
| `SpaceGrid.RoutesAgreeIff` | frontend/src/game/spaceGrid.ts:223-233 | In both orientations the route from a Defense Point to pixels through kilometres meets the route straight from its cell if and only if the point lies in its sector |
| `SpaceGrid.ClickFindsThePointIff` | frontend/src/game/spaceGrid.ts:228-249 | A drawn point, clicked, names itself again if and only if it lay in its sector |
| `SpaceGrid.ClickIsDrawnBackIff` | frontend/src/game/spaceGrid.ts:240-249 | A click always names a point inside the chosen sector, and is drawn back where it was if and only if it was in the cell |
| `SpaceGrid.PlacementFits` | frontend/src/game/spaceGrid.ts:63-80 | The block is square-celled, fits the scene and is centred in it |
| `SpaceGrid.PlacementIsLargest` | frontend/src/game/spaceGrid.ts:54-62 | No larger square cell fits in the chosen orientation, nor, on a board at least as wide as high, in the other |
| `SpaceGrid.OrientationIsBetterIff` | frontend/src/game/spaceGrid.ts:54-67 | The orientation the scene's aspect picks gives cells at least as large as the other if and only if the board is at least as wide as high or the scene is square |
| `SpaceGrid.CoveredMeansWholly` | frontend/src/game/spaceGrid.ts:299-307 | A cell is dropped if and only if every point of it lies in Earth's disc |
| `SpaceGrid.LabelIsInTheOpenIff` | frontend/src/game/spaceGrid.ts:330-363 | A label lies in its cell, and in the open if and only if Earth has not swallowed the cell |
| `SpaceGrid.BuildSpaceGrid` | frontend/src/game/spaceGrid.ts:272-297 | The nested loops list every sector Earth leaves visible, once each, in reading order, and no other |
| `Faucet.FaucetService.Run` | api/faucet/faucet.service.ts:124-192 | Under any interleaving of calls at their awaits and a clock that never goes back, two drips to one wallet are more than the cooldown apart |
| `Faucet.FaucetService.OneSendPerWallet` | api/faucet/faucet.service.ts:131-139 | At most one call per wallet is sending at any time |
| `Faucet.FaucetService.Begin` | api/faucet/faucet.service.ts:124-143 | A call gets past its first segment exactly when the address is a wallet's and the wallet, however spelled, is unmarked and not remembered within the cooldown; then it is marked |
| `Faucet.FaucetService.AfterHistory` | api/faucet/faucet.service.ts:143-149 | An explorer answer refuses, faults or goes on, and even when it overwrites the memory forgets no drip that still counts |
| `Faucet.FaucetService.AfterSend` | api/faucet/faucet.service.ts:159-191 | A send that came back is recorded, pruned around and released in one segment |
| `Faucet.PruningIsSafe` | api/faucet/faucet.service.ts:206-212 | Pruning forgets no drip that is still within the cooldown |
| `Faucet.Prune` | api/faucet/faucet.service.ts:209-210 | The pruning loop keeps exactly the entries at least as recent as the cutoff |

## Left out

- Probe readings: bearings, uncertainty cones, aiming and their trigonometry; a probe's effect on its seat is modelled.
- The seeded draw of an attack's endpoints and the epoch's published seed: a path is any function of room, epoch and
  block, so nothing is claimed about recomputing it.
- Transaction records, event emission and waiting, persistence, and the interleaving of writes that are still waiting
  for their confirmation delay.
- The frozen bounty figure shown on an ended draw (`drawBounty`), timestamps, lobby names beyond their trimmed length
  in bytes, and a deadline that is not a number.
- EmulatorClient.EmulatorBlockchainClient.Resolve: does not store the per-attempt results shown with the reveal;
  `Interception.ResolveAttackDefenses` computes and specifies them from what a room does keep.
- EmulatorClient.EmulatorBlockchainClient.ReadContract: answers without those results, the frozen bounty and the epoch seed.
- EmulatorClient.EmulatorBlockchainClient.RunReconProbe: without the probe's reading and its record.
- EmulatorClient.EmulatorBlockchainClient.WriteContract: draws the hash and applies the call in one step; the confirmation
  wait between them, and so another write applied inside it, is not modelled.
- LazySettlement.LazyRefinesEager: covers player lobbies with a block deadline, because with a clock deadline the launch
  epoch is derived from the block at which somebody looks, and a draw takes whatever the pool holds at that moment; it
  says nothing of `resolvedAtBlock`, nor of the path of a room that had not started, which record when somebody looked.
  Its visits are to one room with nothing between them; whole runs are `Timetable`, which promises no equal balances or
  pool: a refund noticed early can pay for a seat elsewhere, and a forfeit noticed early can reach an earlier draw.
- Reserved names, prize-pool previews, countdown texts and labels around the modelled screen guards.
- The values contract reads put into the directory, which reads are made and how many, and the query's trimming.
- Which explorer pages the faucet reads; its answer is any value or a failure. The private key is part of `enabled`.
- Address checksums are not computed: whether an address with capitals spells its checksum is an input of the faucet.
- IndexerService.IndexerService.Sweep: takes a window of at least one block; with less the reader's loop would not end,
  which is what `WindowAdvancesIff` says.
- Rounding of floating-point geometry, and the ray helpers that place an attack's endpoints.
- React components, Nest controllers, RPC clients, the keeper, authentication and configuration parsing.
