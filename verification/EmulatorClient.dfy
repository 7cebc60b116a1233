/** The emulator itself: an object whose methods update the chain in place, each proved to do what the contract says. */
module EmulatorClient {
  import opened Options
  import opened Numbers
  import opened World
  import opened Interception
  import opened Epochs
  import opened GlobalDefense
  import opened EmulatorState
  import opened GameContract
  import opened Accounting
  import opened Solvency
  import opened Runs
  import opened Redaction

  /** Marking one more winner. */
  lemma MarkOneMore(seats: map<Address, Participant>, winners: seq<Address>, i: nat)
    requires i < |winners|
    ensures var marked := MarkWinners(seats, winners[..i]);
            MarkWinners(seats, winners[..i + 1])
            == if winners[i] in seats then marked[winners[i] := marked[winners[i]].(payoutState := PayoutPending)] else marked
  {
    assert winners[..i + 1] == winners[..i] + [winners[i]];
  }

  lemma MarkNobody(seats: map<Address, Participant>)
    ensures MarkWinners(seats, []) == seats
  {
  }

  /** The winners' entitlement, written seat by seat. */
  method MarkPending(seats: map<Address, Participant>,
                     winners: seq<Address>) returns (marked: map<Address, Participant>)
    ensures marked.Keys == seats.Keys
    ensures forall a :: a in seats && a !in winners ==> marked[a] == seats[a]
    ensures forall a :: a in seats && a in winners ==> marked[a] == seats[a].(payoutState := PayoutPending)
    ensures marked == MarkWinners(seats, winners)
  {
    marked := seats;
    MarkNobody(seats);
    for i := 0 to |winners|
      invariant marked == MarkWinners(seats, winners[..i])
    {
      MarkOneMore(seats, winners, i);
      if winners[i] in marked {
        marked := marked[winners[i] := marked[winners[i]].(payoutState := PayoutPending)];
      }
    }
    assert winners[..|winners|] == winners;
  }

  lemma OneMoreActive(rooms: map<Hash, Room>, ids: set<Hash>, id: Hash)
    requires id in rooms && id !in ids
    ensures |ActiveAmong(rooms, ids + {id})|
            == |ActiveAmong(rooms, ids)| + if rooms[id].status in {Open, Ready, Active} then 1 else 0
  {
    var before, more := ActiveAmong(rooms, ids), ActiveAmong(rooms, ids + {id});
    if rooms[id].status in {Open, Ready, Active} {
      assert more == before + {id};
    } else {
      assert more == before;
    }
  }

  lemma OneMoreIntercepted(rooms: map<Hash, Room>, ids: set<Hash>, id: Hash)
    requires id in rooms && id !in ids
    ensures |InterceptedAmong(rooms, ids + {id})|
            == |InterceptedAmong(rooms, ids)|
               + if rooms[id].outcome.Some? && rooms[id].outcome.value.Intercepted() then 1 else 0
  {
    var before, more := InterceptedAmong(rooms, ids), InterceptedAmong(rooms, ids + {id});
    if rooms[id].outcome.Some? && rooms[id].outcome.value.Intercepted() {
      assert more == before + {id};
    } else {
      assert more == before;
    }
  }

  lemma OneMoreInFlight(rooms: map<Hash, Room>, ids: set<Hash>, id: Hash)
    requires id in rooms && id !in ids
    ensures |InFlightAmong(rooms, ids + {id})|
            == |InFlightAmong(rooms, ids)|
               + if rooms[id].attack.Some? && rooms[id].attack.value.status == AttackLaunched then 1 else 0
  {
    var before, more := InFlightAmong(rooms, ids), InFlightAmong(rooms, ids + {id});
    if rooms[id].attack.Some? && rooms[id].attack.value.status == AttackLaunched {
      assert more == before + {id};
    } else {
      assert more == before;
    }
  }

  /** The statistics' three counts, room by room. */
  method CountRooms(rooms: map<Hash, Room>) returns (active: nat, intercepted: nat, inFlight: nat)
    ensures active == |ActiveAmong(rooms, rooms.Keys)| && intercepted == |InterceptedAmong(rooms, rooms.Keys)|
    ensures inFlight == |InFlightAmong(rooms, rooms.Keys)|
  {
    hide ActiveAmong, InterceptedAmong, InFlightAmong;
    active, intercepted, inFlight := 0, 0, 0;
    var left := rooms.Keys;
    NothingCounted(rooms);
    while left != {}
      invariant left <= rooms.Keys
      invariant active == |ActiveAmong(rooms, rooms.Keys - left)|
      invariant intercepted == |InterceptedAmong(rooms, rooms.Keys - left)|
      invariant inFlight == |InFlightAmong(rooms, rooms.Keys - left)|
      decreases left
    {
      var id: Hash :| id in left;
      OneMoreActive(rooms, rooms.Keys - left, id);
      OneMoreIntercepted(rooms, rooms.Keys - left, id);
      OneMoreInFlight(rooms, rooms.Keys - left, id);
      assert rooms.Keys - (left - {id}) == (rooms.Keys - left) + {id};
      left := left - {id};
      var r := rooms[id];
      if r.status == Open || r.status == Ready || r.status == Active { active := active + 1; }
      if r.outcome.Some? && r.outcome.value.Intercepted() { intercepted := intercepted + 1; }
      if r.attack.Some? && r.attack.value.status == AttackLaunched { inFlight := inFlight + 1; }
    }
    assert rooms.Keys - left == rooms.Keys;
  }

  lemma NothingCounted(rooms: map<Hash, Room>)
    ensures |ActiveAmong(rooms, rooms.Keys - rooms.Keys)| == 0 && |InterceptedAmong(rooms, rooms.Keys - rooms.Keys)| == 0
    ensures |InFlightAmong(rooms, rooms.Keys - rooms.Keys)| == 0
  {
    assert rooms.Keys - rooms.Keys == {};
    assert ActiveAmong(rooms, {}) == {} && InterceptedAmong(rooms, {}) == {} && InFlightAmong(rooms, {}) == {};
  }

  class EmulatorBlockchainClient {
    const protocol: Protocol
    const sqrt: SquareRoot

    var block: int
    var txCounter: nat
    var accounts: map<Address, int>
    var pool: int
    var draws: map<int, Hash>
    var rooms: map<Hash, Room>
    /** Set where the source throws "Protocol cannot pay". */
    var cannotPay: bool

    ghost predicate Configured() { protocol.Valid() && IsSquareRoot(sqrt) }

    /** The whole chain as one value. */
    function Chain(): State
      reads this
    {
      State(block, txCounter, accounts, pool, draws, rooms, cannotPay)
    }

    /** The books balance, no room waits at READY, draws and jackpot are in order. */
    ghost predicate Valid()
      reads this
    {
      Configured() && Inv(Chain())
    }

    constructor (protocol: Protocol, sqrt: SquareRoot, initialBlock: int)
      requires protocol.Valid() && IsSquareRoot(sqrt)
      ensures Valid() && Chain() == CreateEmulatorState(initialBlock)
      ensures this.protocol == protocol
    {
      this.protocol, this.sqrt := protocol, sqrt;
      block, txCounter, accounts, pool := initialBlock, 0, map[], 0;
      draws, rooms, cannotPay := map[], map[], false;
      new;
      GenesisIsSound(initialBlock);
    }

    // ----------------------------------------------------------------- money

    method EnsureAccount(a: Address) returns (balance: int)
      modifies this`accounts
      ensures balance == BalanceOf(old(accounts), a)
      ensures accounts == old(accounts)[a := balance]
    {
      if a !in accounts {
        accounts := accounts[a := if a == PROTOCOL_ESCROW_ADDRESS then 0 else DEFAULT_EMULATOR_BALANCE];
      }
      balance := accounts[a];
      assert old(accounts)[a := balance] == accounts;
    }

    /** Money into the protocol. False is the insufficient-balance error. */
    method Charge(from: Address, amount: int) returns (paid: bool)
      modifies this`accounts
      ensures paid <==> Escrow(old(Chain()), from, amount).Some?
      ensures paid ==> Chain() == Escrow(old(Chain()), from, amount).value
      ensures !paid ==> BalanceOf(accounts, from) < amount && (forall a :: BalanceOf(accounts, a) == BalanceOf(old(accounts), a))
      ensures !paid ==> accounts == old(accounts)
    {
      var balance := if from in accounts then accounts[from] else OpeningBalance(from);
      if balance < amount {
        return false;
      }
      accounts := accounts[from := balance - amount];
      var held := EnsureAccount(PROTOCOL_ESCROW_ADDRESS);
      accounts := accounts[PROTOCOL_ESCROW_ADDRESS := held + amount];
      assert accounts == Credit(Credit(old(accounts), from, -amount), PROTOCOL_ESCROW_ADDRESS, amount);
      paid := true;
    }

    /** Money out of the protocol. */
    method Pay(to: Address, amount: int)
      modifies this`accounts, this`cannotPay
      ensures Chain() == PayOut(old(Chain()), to, amount)
    {
      if amount > 0 {
        var held := if PROTOCOL_ESCROW_ADDRESS in accounts then accounts[PROTOCOL_ESCROW_ADDRESS] else 0;
        if held < amount {
          cannotPay := true;
        } else {
          accounts := accounts[PROTOCOL_ESCROW_ADDRESS := held - amount];
          var balance := EnsureAccount(to);
          accounts := accounts[to := balance + amount];
          assert accounts == Credit(Credit(old(accounts), PROTOCOL_ESCROW_ADDRESS, -amount), to, amount);
        }
      }
    }

    // ------------------------------------------------------------- settlement

    /** Pays every defender back in the order they joined, then returns the bounty. */
    method PayUnplayed(id: Hash)
      requires id in rooms
      modifies this`accounts, this`cannotPay, this`rooms, this`pool
      ensures Chain() == PayoutUnplayed(old(Chain()), id)
    {
      var addresses := rooms[id].participantAddresses;
      for i := 0 to |addresses|
        invariant id in rooms
        invariant RefundSeats(old(Chain()), id, addresses) == RefundSeats(Chain(), id, addresses[i..])
      {
        var address := addresses[i];
        assert addresses[i..][0] == address && addresses[i..][1..] == addresses[i + 1..];
        ghost var before := Chain();
        var r := rooms[id];
        if address in r.seats && !r.seats[address].refunded && r.seats[address].paidIn > 0 {
          var due := r.seats[address].paidIn;
          rooms := rooms[id := r.(seats := r.seats[address := r.seats[address].(refunded := true)])];
          Pay(address, due);
        }
        assert Chain() == RefundSeat(before, id, address);
      }
      assert addresses[|addresses|..] == [];
      ghost var refunded := Chain();
      var r := rooms[id];
      if !r.ledger.creatorSettled {
        var bounty := r.ledger.startPrizePool;
        rooms := rooms[id := r.(ledger := r.ledger.(creatorSettled := true))];
        if bounty > 0 {
          if r.creator == PROTOCOL_ESCROW_ADDRESS {
            pool := pool + bounty;
          } else {
            Pay(r.creator, bounty);
          }
        }
      }
      assert Chain() == ReturnBounty(refunded, id);
    }

    /** OPEN to READY, or to CANCELLED with everybody paid. */
    method Close(id: Hash, nowMs: int)
      requires id in rooms
      modifies this`accounts, this`cannotPay, this`rooms, this`pool
      ensures Chain() == CloseApplications(old(Chain()), id, nowMs)
    {
      var r := rooms[id];
      if r.status == Open {
        var deadlinePassed := if r.config.deadlineBlock > 0 then block >= r.config.deadlineBlock else nowMs >= r.config.deadline;
        if deadlinePassed {
          if r.participantCount >= r.config.minPlayers {
            rooms := rooms[id := r.(status := Ready)];
          } else {
            rooms := rooms[id := r.(status := Cancelled, ending := Unplayed)];
            PayUnplayed(id);
          }
        }
      }
    }

    /** READY to ACTIVE: a draw takes the pool, entries join the reward, the attack is scheduled. */
    method Start(id: Hash)
      requires Configured() && id in rooms && rooms[id].status == Ready
      modifies this`rooms, this`pool
      ensures Chain() == Activate(protocol, old(Chain()), id)
    {
      var r := rooms[id];
      var epochId := if r.currentEpochId.Some? then r.currentEpochId.value else LaunchEpochFor(protocol, r, block);
      if r.creator == PROTOCOL_ESCROW_ADDRESS {
        var pooled := pool;
        if pooled > 0 {
          pool := 0;
          var start := r.ledger.startPrizePool + pooled;
          r := r.(ledger := r.ledger.(rewardPool := r.ledger.rewardPool + pooled, startPrizePool := start),
                  config := r.config.(prizePool := start));
        }
      }
      r := r.(ledger := r.ledger.(rewardPool := r.ledger.rewardPool + r.ledger.entryFeesCollected));
      r := r.(status := Active, currentEpochId := Some(epochId));
      r := r.(attack := Some(ScheduledAttack(protocol, r, epochId)), trajectory := Some(protocol.trajectoryOf(id, epochId, block)));
      rooms := rooms[id := r];
      assert r == ActivatedRoom(protocol, old(rooms[id]), id, block, Pooled(old(Chain()), old(rooms[id])));
    }

    /** The verdict: judge, record, name the ending, forfeit or entitle. */
    method Resolve(id: Hash)
      requires Configured() && id in rooms && rooms[id].attack.Some?
      modifies this`rooms, this`pool
      ensures Chain() == ResolveRoom(protocol, old(Chain()), id)
    {
      hide ConcludedRoom, Forfeited, MaybeTopUpGlobalDefense, IsSquareRoot;
      if rooms[id].trajectory.None? {
        return;
      }
      var judged, forfeited := WriteVerdict(rooms[id]);
      pool := pool + forfeited;
      rooms := rooms[id := judged];
      assert Chain() == Conclude(protocol, old(Chain()), id);
      if forfeited > 0 {
        TopUpDraw();
      }
    }

    method WriteVerdict(was: Room) returns (r: Room, forfeited: int)
      requires Configured() && Judgeable(was)
      ensures r == ConcludedRoom(protocol, was, block) && forfeited == Forfeited(protocol, was)
    {
      hide ResolveAttack, WasActedIn, MarkWinners, OpenedAttempts, SceneOf, Judged, Opened, IsSquareRoot;
      r := was;
      var attempts := OpenedAttempts(r);
      var resolution, results := ResolveAttackDefenses(attempts, SceneOf(protocol, r), sqrt);
      assert resolution == VerdictOf(protocol, was);
      var winners := Winners(resolution);
      var share := if resolution.Stopped? then CalculateRewardPerWinner(r.ledger.rewardPool, |winners|) else 0;
      r := r.(attack := Some(r.attack.value.(status := AttackResolved)),
              outcome := Some(AttackOutcome(r.attack.value.epochId, resolution, share, block)));
      forfeited := 0;
      if !WasActedIn(was) {
        r := r.(ending := Unplayed, status := Cancelled);
      } else {
        r := r.(ending := Completed, status := Resolved);
        if resolution.NotStopped? && r.ledger.rewardPool > 0 {
          forfeited := r.ledger.rewardPool;
          r := r.(ledger := r.ledger.(rewardPool := 0));
        }
      }
      var seats := MarkPending(was.seats, winners);
      r := r.(seats := seats);
    }

    /** PENDING to LAUNCHED at the launch block, LAUNCHED to RESOLVED at impact. */
    method Advance(id: Hash)
      requires Configured() && id in rooms
      modifies this`rooms, this`pool
      ensures Chain() == AdvanceAttack(protocol, old(Chain()), id)
    {
      var r := rooms[id];
      if r.attack.None? || r.attack.value.status == AttackResolved {
        return;
      }
      if r.attack.value.status == AttackPending && block >= r.attack.value.launchBlock {
        rooms := rooms[id := r.(attack := Some(r.attack.value.(status := AttackLaunched)))];
      }
      if rooms[id].attack.value.status == AttackLaunched && block >= r.attack.value.ImpactBlock() {
        Resolve(id);
      }
    }

    /** Brings one room up to date with the current block. */
    method Settle(id: Hash, nowMs: int)
      requires Configured()
      modifies this`accounts, this`cannotPay, this`rooms, this`pool
      ensures Chain() == SettleLobby(protocol, old(Chain()), id, nowMs)
    {
      hide CloseApplications, Activate, AdvanceAttack;
      if id !in rooms {
        return;
      }
      Close(id, nowMs);
      if rooms[id].status == Ready {
        Start(id);
      }
      if rooms[id].status == Active {
        Advance(id);
      }
    }

    // --------------------------------------------------------- Global Defense

    method TopUpDraw()
      requires Configured()
      modifies this`rooms, this`pool
      ensures Chain() == MaybeTopUpGlobalDefense(protocol, old(Chain()))
    {
      var extra := pool;
      if extra <= 0 || protocol.limits.globalDefenseEpochInterval <= 0 {
        return;
      }
      var epochId := UpcomingDraw(protocol, block).nextEpoch;
      if epochId !in draws || draws[epochId] !in rooms {
        return;
      }
      var id := draws[epochId];
      var r := rooms[id];
      if r.status in {Active, Resolved, Cancelled} || (r.creator == PROTOCOL_ESCROW_ADDRESS && r.status == Open) {
        return;
      }
      pool := 0;
      var start := r.ledger.startPrizePool + extra;
      rooms := rooms[id := r.(ledger := r.ledger.(rewardPool := r.ledger.rewardPool + extra, startPrizePool := start),
                              config := r.config.(prizePool := start))];
    }

    /** Mints the next draw; `why` says which guard refused. */
    method OpenDrawRoom(nowMs: int, hash: Hash) returns (why: Option<Refusal>)
      requires Configured()
      modifies this`rooms, this`draws
      ensures why.None? ==> OpenGlobalDefense(protocol, old(Chain()), nowMs, hash) == Confirmed(Chain())
      ensures why.Some? ==> OpenGlobalDefense(protocol, old(Chain()), nowMs, hash) == Failed(Chain(), why.value)
    {
      var interval := protocol.limits.globalDefenseEpochInterval;
      if interval <= 0 {
        return Some(DrawsDisabled);
      }
      var schedule := UpcomingDraw(protocol, block);
      if schedule.nextEpoch in draws {
        return Some(DrawAlreadyOpen);
      }
      if pool <= 0 {
        return Some(PoolEmpty);
      }
      if block >= schedule.deadlineBlock {
        return Some(DrawPassed);
      }
      if block < schedule.openFromBlock {
        return Some(DrawNotOpenYet);
      }
      rooms := rooms[hash := DrawRoom(protocol, schedule, block, nowMs)];
      draws := draws[schedule.nextEpoch := hash];
      why := None;
    }

    /** The keeper in the block ticker. It never meets a refusal. */
    method OpenDrawIfDue(nowMs: int) returns (why: Option<Refusal>)
      requires Configured()
      modifies this`rooms, this`draws, this`txCounter
      ensures Chain() == MaybeOpenGlobalDefense(protocol, old(Chain()), nowMs)
      ensures why.None?
    {
      if !IsGlobalDefenseDue(protocol, Chain()) {
        return None;
      }
      txCounter := txCounter + 1;
      why := OpenDrawRoom(nowMs, txCounter);
    }

    method SettleDraws(count: nat)
      modifies this`rooms, this`pool
      ensures Chain() == SettleProtocolDraws(old(Chain()), count)
    {
      for id := 1 to count + 1
        invariant Chain() == SettleProtocolDraws(old(Chain()), id - 1)
      {
        if id in rooms {
          var r := rooms[id];
          if r.creator == PROTOCOL_ESCROW_ADDRESS && (r.ending == Unplayed || r.ending == CalledOff) && !r.ledger.creatorSettled {
            var amount := r.ledger.startPrizePool;
            if amount > 0 {
              rooms := rooms[id := r.(ledger := r.ledger.(creatorSettled := true))];
              pool := pool + amount;
            }
          }
        }
      }
    }

    method SettleAll(count: nat, nowMs: int)
      requires Configured()
      modifies this`accounts, this`cannotPay, this`rooms, this`pool
      ensures Chain() == SettleRooms(protocol, old(Chain()), count, nowMs)
    {
      hide SettleLobby;
      for id := 1 to count + 1
        invariant Chain() == SettleRooms(protocol, old(Chain()), id - 1, nowMs)
      {
        Settle(id, nowMs);
      }
    }

    // ----------------------------------------------------------------- writes

    /** The transaction a write amounts to: confirmed, or failed with a reason, leaving this chain. */
    ghost function Told(why: Option<Refusal>): Tx
      reads this
    {
      if why.None? then Confirmed(Chain()) else Failed(Chain(), why.value)
    }

    method CreateRoom(from: Address, config: LobbyConfig, value: int, nowMs: int,
                      hash: Hash) returns (why: Option<Refusal>)
      requires Configured()
      modifies this`accounts, this`rooms
      ensures Told(why) == ApplyCreateLobby(protocol, old(Chain()), from, config, value, nowMs, hash)
    {
      if !IsLegalConfig(config, nowMs, protocol.limits) {
        return Some(InvalidConfig);
      }
      var creationCost := config.prizePool + config.protocolJoinFee;
      if value < creationCost {
        return Some(ValueTooLow);
      }
      var paid := Charge(from, value);
      if !paid {
        return Some(InsufficientBalance);
      }
      var ledger := CreateLobbyLedger(config.prizePool);
      ledger := ledger.(protocolFeeAccrued := ledger.protocolFeeAccrued + config.protocolJoinFee);
      var epochId := if config.deadlineBlock > 0
                     then Some(LaunchEpochOf(config.deadlineBlock, protocol.limits.epochBlocks, protocol.genesisBlock)) else None;
      rooms := rooms[hash := Room(from, Open, NotEnded, config, 0, [], epochId, None, None, None, ledger, map[], None, [], map[],
                                  value - creationCost)];
      why := None;
    }

    method Join(from: Address, id: Hash, value: int, nowMs: int) returns (why: Option<Refusal>)
      requires Configured()
      modifies this`accounts, this`rooms
      ensures Told(why) == ApplyJoinLobby(old(Chain()), from, id, value, nowMs)
    {
      if id !in rooms {
        return Some(LobbyNotFound);
      }
      var r := rooms[id];
      if !CanJoinLobby(r, block, nowMs) {
        return Some(NotOpenForJoining);
      }
      var cost := CalculateParticipantCost(r.config.entryPrice, r.config.creatorFeePercent, r.creator == PROTOCOL_ESCROW_ADDRESS);
      if value < cost {
        return Some(ValueTooLow);
      }
      var paid := Charge(from, cost);
      if !paid {
        return Some(InsufficientBalance);
      }
      var commission := if r.creator == PROTOCOL_ESCROW_ADDRESS then 0
                        else CalculateAuthorCommission(r.config.entryPrice, r.config.creatorFeePercent);
      r := r.(ledger := r.ledger.(entryFeesCollected := r.ledger.entryFeesCollected + r.config.entryPrice,
                                  creatorFeeAccrued := r.ledger.creatorFeeAccrued + commission));
      r := r.(seats := r.seats[from := Participant(r.config.freeProbes, 0, 0, [], [], NoPayout, cost, 0, false, 0)]);
      r := r.(participantCount := r.participantCount + 1, participantAddresses := r.participantAddresses + [from]);
      rooms := rooms[id := r];
      why := None;
    }

    method Leave(from: Address, id: Hash, nowMs: int) returns (why: Option<Refusal>)
      requires Configured()
      modifies this`accounts, this`cannotPay, this`rooms, this`pool
      ensures Told(why) == ApplyLeaveLobby(protocol, old(Chain()), from, id, nowMs)
    {
      hide SettleLobby, PayOut;
      if id !in rooms {
        return Some(LobbyNotFound);
      }
      Settle(id, nowMs);
      var r := rooms[id];
      if r.status != Open {
        return Some(AlreadyStarted);
      }
      if from !in r.seats {
        return Some(NotJoined);
      }
      var refund, probeRefund := r.seats[from].paidIn, r.seats[from].probesPaid;
      var consumed := probeRefund + r.config.entryPrice;
      var commissionPaid := Max(0, refund - consumed);
      r := r.(ledger := r.ledger.(entryFeesCollected := r.ledger.entryFeesCollected - r.config.entryPrice,
                                  creatorFeeAccrued := r.ledger.creatorFeeAccrued - commissionPaid,
                                  probeFeesCollected := r.ledger.probeFeesCollected - probeRefund,
                                  rewardPool := r.ledger.rewardPool - probeRefund));
      r := r.(seats := r.seats - {from}, participantCount := Max(0, r.participantCount - 1),
              participantAddresses := RemoveAll(r.participantAddresses, from));
      rooms := rooms[id := r];
      Pay(from, refund);
      why := None;
    }

    method BuyProbe(from: Address, id: Hash, value: int, nowMs: int) returns (why: Option<Refusal>)
      requires Configured()
      modifies this`accounts, this`cannotPay, this`rooms, this`pool
      ensures Told(why) == ApplyBuyDrone(protocol, old(Chain()), from, id, value, nowMs)
    {
      hide SettleLobby, Escrow;
      if id !in rooms {
        return Some(LobbyNotFound);
      }
      Settle(id, nowMs);
      var r := rooms[id];
      if r.status != Open && r.status != Ready && r.status != Active {
        return Some(HasEnded);
      }
      if from !in r.seats {
        return Some(NotJoined);
      }
      if r.seats[from].defenseAttemptIds != [] {
        return Some(ReconClosed);
      }
      if r.config.freeProbes + r.seats[from].purchasedDrones >= r.config.maxProbes {
        return Some(MaximumProbes);
      }
      if value < r.config.probePrice {
        return Some(ValueTooLow);
      }
      var paid := Charge(from, r.config.probePrice);
      if !paid {
        return Some(InsufficientBalance);
      }
      var seat := r.seats[from];
      seat := seat.(purchasedDrones := seat.purchasedDrones + 1);
      seat := seat.(paidIn := seat.paidIn + r.config.probePrice, probesPaid := seat.probesPaid + r.config.probePrice);
      r := r.(seats := r.seats[from := seat],
              ledger := r.ledger.(probeFeesCollected := r.ledger.probeFeesCollected + r.config.probePrice,
                                  rewardPool := r.ledger.rewardPool + r.config.probePrice));
      rooms := rooms[id := r];
      why := None;
    }

    /** One sealed action: opened, dispatched, and refused or applied as what it turned out to be. */
    method ActPrivately(from: Address, id: Hash, envelope: SealedRequest, nowMs: int,
                        hash: Hash) returns (why: Option<Refusal>)
      requires Configured()
      modifies this`accounts, this`cannotPay, this`rooms, this`pool
      ensures Told(why) == ApplyPrivateAction(protocol, old(Chain()), from, id, envelope, nowMs, hash)
    {
      hide SettleLobby, ProbeRefusal, DefenseRefusal;
      if id !in rooms {
        return Some(LobbyNotFound);
      }
      Settle(id, nowMs);
      if envelope.key != protocol.sealingKey {
        return Some(BadEnvelope);
      }
      match envelope.request {
        case ReconProbe(attackId) => why := RunReconProbe(id, attackId, from, hash);
        case DefenseSubmit(attackId, point) => why := RunDefenseSubmit(id, attackId, point, from, hash);
      }
    }

    method RunReconProbe(id: Hash, attackId: int, from: Address, hash: Hash) returns (why: Option<Refusal>)
      requires id in rooms
      modifies this`rooms
      ensures why == ProbeRefusal(old(rooms[id]), from, attackId, block)
      ensures why.Some? ==> Chain() == old(Chain())
      ensures why.None? ==> Chain() == Put(old(Chain()), id, Probed(old(rooms[id]), from, block, hash))
    {
      var r := rooms[id];
      if from !in r.seats {
        return Some(NotJoined);
      }
      var seat := r.seats[from];
      if |seat.probeIds| >= r.config.freeProbes + seat.purchasedDrones {
        return Some(NoProbesLeft);
      }
      if seat.lastProbeBlock > 0 && block < seat.lastProbeBlock + PROBE_DELAY_BLOCKS {
        return Some(ProbeInFlight);
      }
      if |seat.defenseAttemptIds| > 0 {
        return Some(ReconClosed);
      }
      var attack := FindAttack(r, attackId);
      if attack.None? {
        return Some(AttackNotFound);
      }
      if attack.value.status == AttackPending {
        return Some(NotLaunched);
      }
      if attack.value.status == AttackResolved {
        return Some(AttackOver);
      }
      if r.trajectory.None? {
        return Some(AttackNotFound);
      }
      seat := seat.(probeIds := seat.probeIds + [hash]);
      seat := seat.(lastProbeBlock := block);
      seat := seat.(freeDronesRemaining := Max(0, r.config.freeProbes - |seat.probeIds|));
      seat := seat.(actionCount := seat.actionCount + 1);
      rooms := rooms[id := r.(seats := r.seats[from := seat])];
      why := None;
    }

    method RunDefenseSubmit(id: Hash, attackId: int, point: DefensePoint, from: Address,
                            hash: Hash) returns (why: Option<Refusal>)
      requires id in rooms
      modifies this`rooms
      ensures why == DefenseRefusal(protocol, old(rooms[id]), from, attackId, point, block)
      ensures why.Some? ==> Chain() == old(Chain())
      ensures why.None? ==> Chain() == Put(old(Chain()), id, Defended(old(rooms[id]), from, point, block, hash))
    {
      var r := rooms[id];
      if !IsValidSector(point.sector, protocol.grid) {
        return Some(OutsideGrid);
      }
      if !IsInsideSector(point) {
        return Some(OutsideSector);
      }
      if from !in r.seats {
        return Some(NotJoined);
      }
      var seat := r.seats[from];
      if |seat.defenseAttemptIds| > 0 {
        return Some(DefenseLocked);
      }
      if seat.lastProbeBlock > 0 && block < seat.lastProbeBlock + PROBE_DELAY_BLOCKS {
        return Some(ProbeInFlight);
      }
      var attack := FindAttack(r, attackId);
      if attack.None? {
        return Some(AttackNotFound);
      }
      if attack.value.status == AttackPending {
        return Some(NotLaunched);
      }
      if attack.value.status == AttackResolved {
        return Some(AttackOver);
      }
      r := r.(attempts := r.attempts + [StoredAttempt(hash, from, block)], points := r.points[hash := point]);
      seat := seat.(defenseAttemptIds := seat.defenseAttemptIds + [hash]);
      seat := seat.(actionCount := seat.actionCount + 1);
      rooms := rooms[id := r.(seats := r.seats[from := seat])];
      why := None;
    }

    method RevealPath(from: Address, id: Hash, attackId: int, nowMs: int) returns (why: Option<Refusal>)
      requires Configured()
      modifies this`accounts, this`cannotPay, this`rooms, this`pool
      ensures Told(why) == ApplyRevealAttack(protocol, old(Chain()), from, id, attackId, nowMs)
    {
      hide SettleLobby;
      if id !in rooms {
        return Some(LobbyNotFound);
      }
      Settle(id, nowMs);
      var r := rooms[id];
      if r.revealed.Some? {
        return Some(AlreadyRevealed);
      }
      var attack := FindAttack(r, attackId);
      if attack.None? {
        return Some(AttackNotFound);
      }
      if attack.value.status != AttackResolved {
        return Some(NotResolved);
      }
      if r.outcome.None? || r.outcome.value.attackId != attackId {
        return Some(WrongAttack);
      }
      if r.trajectory.None? {
        return Some(AttackNotFound);
      }
      rooms := rooms[id := r.(revealed := Some(LobbyReveal(attackId, r.trajectory.value, from, block)))];
      why := None;
    }

    method ClaimPrize(from: Address, id: Hash, attackId: int, nowMs: int) returns (why: Option<Refusal>)
      requires Configured()
      modifies this`accounts, this`cannotPay, this`rooms, this`pool
      ensures Told(why) == ApplyClaimReward(protocol, old(Chain()), from, id, attackId, nowMs)
    {
      hide SettleLobby, PayOut, CompletedCreatorDue;
      if id !in rooms {
        return Some(LobbyNotFound);
      }
      Settle(id, nowMs);
      ghost var settled := Chain();
      var r := rooms[id];
      var refusal := RewardRefusal(r, from, attackId);
      if refusal.Some? {
        return refusal;
      }
      ghost var was := r;
      var prize := r.outcome.value.rewardPerWinner;
      r := r.(seats := r.seats[from := r.seats[from].(payoutState := Paid)]);
      r := r.(ledger := r.ledger.(rewardsClaimed := r.ledger.rewardsClaimed + prize));
      var paid := prize;
      if from == r.creator && !r.ledger.creatorSettled {
        ClaimKeepsTheDue(was, from);
        var fee := CompletedCreatorDue(r);
        if fee > 0 {
          r := r.(ledger := r.ledger.(creatorSettled := true));
          paid := paid + fee;
        }
      }
      assert r == Rewarded(was, from);
      rooms := rooms[id := r];
      Pay(from, paid);
      why := None;
    }

    method ClaimBack(from: Address, id: Hash, nowMs: int) returns (why: Option<Refusal>)
      requires Configured()
      modifies this`accounts, this`cannotPay, this`rooms, this`pool
      ensures Told(why) == ApplyClaimRefund(protocol, old(Chain()), from, id, nowMs)
    {
      hide SettleLobby, PayOut;
      if id !in rooms {
        return Some(LobbyNotFound);
      }
      Settle(id, nowMs);
      ghost var settled := Chain();
      var r := rooms[id];
      if r.ending != Unplayed && r.ending != CalledOff {
        return Some(WasPlayed);
      }
      ghost var was := r;
      var amount := 0;
      if from in r.seats && !r.seats[from].refunded && r.seats[from].paidIn > 0 {
        amount := amount + r.seats[from].paidIn;
        r := r.(seats := r.seats[from := r.seats[from].(refunded := true)]);
      }
      if from == r.creator && !r.ledger.creatorSettled {
        var creatorLaunch := r.ledger.startPrizePool;
        if creatorLaunch > 0 {
          amount := amount + creatorLaunch;
          r := r.(ledger := r.ledger.(creatorSettled := true));
        }
      }
      assert r == PaidBack(was, from) && amount == SeatRefund(was, from) + BountyRefund(was, from);
      if amount <= 0 {
        assert r == was;
        if from == r.creator && r.ledger.creatorSettled {
          return Some(AlreadyClaimed);
        }
        if from !in r.seats {
          return Some(NotJoined);
        }
        if r.seats[from].refunded {
          return Some(AlreadyClaimed);
        }
        return Some(NothingToRefund);
      }
      rooms := rooms[id := r];
      Pay(from, amount);
      why := None;
    }

    method SettleAuthor(from: Address, id: Hash, nowMs: int) returns (why: Option<Refusal>)
      requires Configured()
      modifies this`accounts, this`cannotPay, this`rooms, this`pool
      ensures Told(why) == ApplySettleCreator(protocol, old(Chain()), from, id, nowMs)
    {
      hide SettleLobby, PayOut, CompletedCreatorDue;
      if id !in rooms {
        return Some(LobbyNotFound);
      }
      Settle(id, nowMs);
      var r := rooms[id];
      var protocolOwned := r.creator == PROTOCOL_ESCROW_ADDRESS;
      if !protocolOwned && from != r.creator {
        return Some(NotTheCreator);
      }
      if r.ledger.creatorSettled {
        return Some(AlreadySettled);
      }
      var amount;
      if r.ending == Unplayed || r.ending == CalledOff {
        amount := r.ledger.startPrizePool;
      } else if r.ending == Completed {
        amount := CompletedCreatorDue(r);
      } else {
        return Some(NotResolved);
      }
      rooms := rooms[id := r.(ledger := r.ledger.(creatorSettled := true))];
      if amount <= 0 {
        return Some(NothingToSettle);
      }
      if protocolOwned {
        pool := pool + amount;
      } else {
        Pay(r.creator, amount);
      }
      why := None;
    }

    // ---------------------------------------------------- what the world calls

    /** Any write by a wallet: the chain moves as the contract says, and the books still balance. */
    method WriteContract(from: Address, call: Call, nowMs: int) returns (why: Option<Refusal>)
      requires Valid() && from != PROTOCOL_ESCROW_ADDRESS
      modifies this
      ensures Valid() && !cannotPay
      ensures Told(why) == GameContract.WriteContract(protocol, old(Chain()), from, call, nowMs)
    {
      hide Inv, ApplyCreateLobby, ApplyJoinLobby, ApplyLeaveLobby, ApplyBuyDrone, ApplyPrivateAction, ApplyRevealAttack,
           ApplyClaimReward, ApplyClaimRefund, ApplySettleCreator, OpenGlobalDefense, Continues, NothingOrphaned, OrphanedBy;
      WriteKeeps(protocol, Chain(), from, call, nowMs);
      ghost var before := Chain();
      txCounter := txCounter + 1;
      var hash := txCounter;
      match call {
        case CreateLobby(config, value) => why := CreateRoom(from, config, value, nowMs, hash);
        case JoinLobby(id, value) => why := Join(from, id, value, nowMs);
        case LeaveLobby(id) => why := Leave(from, id, nowMs);
        case BuyDrone(id, value) => why := BuyProbe(from, id, value, nowMs);
        case SubmitPrivateAction(id, envelope) => why := ActPrivately(from, id, envelope, nowMs, hash);
        case RevealAttack(id, attackId) => why := RevealPath(from, id, attackId, nowMs);
        case ClaimReward(id, attackId) => why := ClaimPrize(from, id, attackId, nowMs);
        case ClaimRefund(id) => why := ClaimBack(from, id, nowMs);
        case SettleCreator(id) => why := SettleAuthor(from, id, nowMs);
        case OpenDraw => why := OpenDrawRoom(nowMs, hash);
        case CollectProbe => why := None;
      }
      NeverShort(Chain());
    }

    /** One block: the draw pool is folded or a draw minted when due, and nothing is ever refused. */
    method MineBlock(nowMs: int)
      requires Valid()
      modifies this
      ensures Valid() && !cannotPay && block == old(block) + 1
      ensures Chain() == GameContract.MineBlock(protocol, old(Chain()), nowMs)
    {
      hide Inv, MaybeTopUpGlobalDefense, MaybeOpenGlobalDefense, Continues, NothingOrphaned;
      MineKeeps(protocol, Chain(), nowMs);
      block := block + 1;
      ghost var ticked := Chain();
      TopUpDraw();
      var why := OpenDrawIfDue(nowMs);
      NeverShort(Chain());
    }

    /** Any read: what it settles first, and what it answers. */
    method ReadContract(q: Query, viewer: Viewer, nowMs: int) returns (answer: Answer)
      requires Valid()
      modifies this
      ensures Valid() && !cannotPay
      ensures Chain() == SettledFor(protocol, old(Chain()), q, nowMs)
      ensures answer == Redaction.ReadContract(protocol, old(Chain()), q, viewer, nowMs)
    {
      hide Inv, SettleLobby, SettleRooms, SettleProtocolDraws, MaybeTopUpGlobalDefense, MaybeOpenGlobalDefense,
           Continues, NothingOrphaned, AnswerFrom;
      ghost var before := Chain();
      if q.GetGameStats? || q.GetGlobalDefenseDraw? {
        SettleEverythingKeeps(protocol, before, nowMs);
        var count := txCounter;
        SettleAll(count, nowMs);
        SettleDraws(count);
        TopUpDraw();
        var why := OpenDrawIfDue(nowMs);
      } else if !q.GetSealingKey? {
        SettleContinues(protocol, before, q.lobbyId, nowMs);
        Settle(q.lobbyId, nowMs);
      }
      NeverShort(Chain());
      if q.GetGameStats? {
        var active, intercepted, inFlight := CountRooms(rooms);
        answer := Stats(StatsFrom(protocol, State(block, txCounter, accounts, pool, draws, rooms, cannotPay), active, intercepted, inFlight));
        StatsAreCounted(protocol, Chain(), viewer);
        return;
      }
      answer := AnswerFrom(protocol, State(block, txCounter, accounts, pool, draws, rooms, cannotPay), q, viewer);
    }
  }

  /** The statistics are a function of the three counts. */
  lemma StatsAreCounted(p: Protocol, s: State, viewer: Viewer)
    requires p.Valid()
    ensures AnswerFrom(p, s, GetGameStats, viewer) == Stats(StatsFrom(p, s, CountActive(s), CountIntercepted(s), CountInFlight(s)))
  {
  }

  /** The due does not depend on who has claimed. */
  lemma ClaimKeepsTheDue(r: Room, from: Address)
    requires from in r.seats && r.outcome.Some?
    ensures CompletedCreatorDue(Claimed(r, from)) == CompletedCreatorDue(r)
  {
  }

  /** In a sound state no payout was ever short. */
  lemma NeverShort(s: State)
    ensures Inv(s) ==> !s.cannotPay
  {
  }
}
