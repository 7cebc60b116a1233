/** Where everybody's money went: each wallet's balance is what it opened with, less what it put in, plus what it took out. */
module Wallets {
  import opened Sums
  import opened Options
  import opened Numbers
  import opened World
  import opened Interception
  import opened GlobalDefense
  import opened EmulatorState
  import opened GameContract
  import opened Accounting
  import opened RoomMoves
  import opened RoomHistory
  import opened Jackpot
  import opened Solvency
  import opened Runs
  import opened Entitlements
  import opened LazySettlement
  import opened Timetable

  // ------------------------------------------------------------ one wallet, one room

  /** What a wallet has put into a room, as the room's record of it stands: its seat, and the mint if it is the author. */
  function Outlay(r: Room, a: Address): int {
    (if a in r.seats then r.seats[a].paidIn else 0)
    + (if a == r.creator then r.ledger.startPrizePool + r.ledger.protocolFeeAccrued + r.overpaid else 0)
  }

  /** What it has taken out: of its seat's entitlement, and of the author's. */
  function TakenBy(r: Room, a: Address): int {
    (if a in r.seats then SeatTaken(r, r.seats[a]) else 0)
    + (if a == r.creator && r.ledger.creatorSettled then CreatorShare(r) else 0)
  }

  function Net(r: Room, a: Address): int { TakenBy(r, a) - Outlay(r, a) }

  ghost function Nets(rooms: map<Hash, Room>, a: Address): map<Hash, int> {
    map id | id in rooms :: Net(rooms[id], a)
  }

  /** The wallet's balance moved by what its records moved by, less what a repeated join wiped off them. */
  ghost predicate Adds(s: State, t: State, a: Address, lost: int) {
    BalanceOf(t.accounts, a) - BalanceOf(s.accounts, a) == Sum(Nets(t.rooms, a)) - Sum(Nets(s.rooms, a)) - lost
  }

  lemma PutNet(rooms: map<Hash, Room>, id: Hash, r: Room, a: Address)
    ensures Sum(Nets(rooms[id := r], a)) == Sum(Nets(rooms, a)) - (if id in rooms then Net(rooms[id], a) else 0) + Net(r, a)
  {
    hide Sum, Net;
    assert Nets(rooms[id := r], a) == Nets(rooms, a)[id := Net(r, a)];
    SumUpdate(Nets(rooms, a), id, Net(r, a));
  }

  lemma OneRoomAdds(s: State, t: State, id: Hash, r: Room, a: Address, lost: int)
    requires t.rooms == s.rooms[id := r]
    requires BalanceOf(t.accounts, a) - BalanceOf(s.accounts, a)
             == Net(r, a) - (if id in s.rooms then Net(s.rooms[id], a) else 0) - lost
    ensures Adds(s, t, a, lost)
  {
    hide Sum, Net;
    PutNet(s.rooms, id, r, a);
  }

  lemma AddsChains(s: State, t: State, u: State, a: Address, x: int, y: int)
    requires Adds(s, t, a, x) && Adds(t, u, a, y)
    ensures Adds(s, u, a, x + y)
  {
    hide Sum, Nets;
  }

  lemma SameAdds(s: State, t: State, a: Address)
    requires t.rooms == s.rooms && BalanceOf(t.accounts, a) == BalanceOf(s.accounts, a)
    ensures Adds(s, t, a, 0)
  {
    hide Sum, Nets;
  }

  /** A payout that was not short reached its wallet, and nobody else's. */
  lemma PaidUnlessShort(s: State, to: Address, amount: int, a: Address)
    requires to != PROTOCOL_ESCROW_ADDRESS && a != PROTOCOL_ESCROW_ADDRESS && !PayOut(s, to, amount).cannotPay && amount >= 0
    ensures BalanceOf(PayOut(s, to, amount).accounts, a) == BalanceOf(s.accounts, a) + if a == to then amount else 0
    ensures PayOut(s, to, amount).rooms == s.rooms
  {
  }

  lemma NeverShort(s: State)
    requires Solvent(s)
    ensures !s.cannotPay
  {
    hide Sum, RoomOk;
  }

  // ------------------------------------------------------------- refunds, one by one

  lemma RefundedNet(r: Room, b: Address, a: Address)
    requires Refunding(r) && b in r.seats && !r.seats[b].refunded
    ensures Net(Refunded(r, b), a) == Net(r, a) + if a == b then r.seats[b].paidIn else 0
  {
  }

  lemma RefundSeatAdds(s: State, id: Hash, b: Address, a: Address)
    requires Solvent(s) && id in s.rooms && s.rooms[id].status == Cancelled && a != PROTOCOL_ESCROW_ADDRESS
    ensures Adds(s, RefundSeat(s, id, b), a, 0)
  {
    hide Sum, Solvent, Net, Refunded, PayOut, OnlyRoom, RoomOk;
    var r := s.rooms[id];
    RefundSeatKeeps(s, id, b);
    SolventRoom(s, id);
    CancelledDue(r);
    if b in r.seats && !r.seats[b].refunded && r.seats[b].paidIn > 0 {
      NeverShort(RefundSeat(s, id, b));
      NotTheProtocol(r, b);
      PaidUnlessShort(Put(s, id, Refunded(r, b)), b, r.seats[b].paidIn, a);
      RefundedNet(r, b, a);
      OneRoomAdds(s, RefundSeat(s, id, b), id, Refunded(r, b), a, 0);
    } else {
      SameAdds(s, s, a);
    }
  }

  lemma {:induction false} RefundSeatsAdd(s: State, id: Hash, addresses: seq<Address>, a: Address)
    requires Solvent(s) && id in s.rooms && s.rooms[id].status == Cancelled && a != PROTOCOL_ESCROW_ADDRESS
    ensures Adds(s, RefundSeats(s, id, addresses), a, 0)
    decreases |addresses|
  {
    hide Sum, Solvent, RefundSeat, OnlyRoom, Adds;
    if addresses == [] {
      SameAdds(s, s, a);
    } else {
      var u := RefundSeat(s, id, addresses[0]);
      RefundSeatKeeps(s, id, addresses[0]);
      RefundSeatAdds(s, id, addresses[0], a);
      RefundSeatsAdd(u, id, addresses[1..], a);
      AddsChains(s, u, RefundSeats(s, id, addresses), a, 0, 0);
    }
  }

  lemma SettledNet(r: Room, a: Address)
    requires !r.ledger.creatorSettled
    ensures Net(Settled(r), a) == Net(r, a) + if a == r.creator then CreatorShare(r) else 0
  {
  }

  lemma ReturnBountyAdds(s: State, id: Hash, a: Address)
    requires Solvent(s) && id in s.rooms && s.rooms[id].status == Cancelled && a != PROTOCOL_ESCROW_ADDRESS
    ensures Adds(s, ReturnBounty(s, id), a, 0)
  {
    hide Sum, Solvent, Net, Settled, PayOut, OnlyRoom, RoomOk;
    var r := s.rooms[id];
    var t := ReturnBounty(s, id);
    ReturnBountyKeeps(s, id);
    SolventRoom(s, id);
    CancelledDue(r);
    if r.ledger.creatorSettled {
      SameAdds(s, s, a);
    } else {
      NeverShort(t);
      SettledNet(r, a);
      if !r.ProtocolOwned() && r.ledger.startPrizePool > 0 {
        PaidUnlessShort(Put(s, id, Settled(r)), r.creator, r.ledger.startPrizePool, a);
      }
      OneRoomAdds(s, t, id, Settled(r), a, 0);
    }
  }

  lemma PayoutUnplayedAdds(s: State, id: Hash, a: Address)
    requires Solvent(s) && id in s.rooms && s.rooms[id].status == Cancelled && a != PROTOCOL_ESCROW_ADDRESS
    ensures Adds(s, PayoutUnplayed(s, id), a, 0)
  {
    hide Sum, Solvent, RefundSeats, ReturnBounty, Adds, OnlyRoom;
    var u := RefundSeats(s, id, s.rooms[id].participantAddresses);
    RefundSeatsKeeps(s, id, s.rooms[id].participantAddresses);
    RefundSeatsAdd(s, id, s.rooms[id].participantAddresses, a);
    ReturnBountyAdds(u, id, a);
    AddsChains(s, u, PayoutUnplayed(s, id), a, 0, 0);
  }

  /** After the payout nothing is due to anybody. */
  lemma UnplayedOwesNothing(s: State, id: Hash, a: Address)
    requires Solvent(s) && id in s.rooms && s.rooms[id].status == Cancelled
    ensures var r := PayoutUnplayed(s, id).rooms[id];
            && r.creator == s.rooms[id].creator && r.ledger.creatorSettled && r.seats.Keys == s.rooms[id].seats.Keys
            && r.ending == Unplayed == s.rooms[id].ending && r.ledger.startPrizePool == s.rooms[id].ledger.startPrizePool
            && r.ledger.protocolFeeAccrued == s.rooms[id].ledger.protocolFeeAccrued && r.overpaid == s.rooms[id].overpaid
            && (a in r.seats ==> r.seats[a].paidIn == s.rooms[id].seats[a].paidIn && SeatDue(r, r.seats[a]) == 0)
  {
    hide Sum, Solvent, RefundSeats, ReturnBounty, PoolTerm, Orphaned, PlayKept, RoomOk;
    var addresses := s.rooms[id].participantAddresses;
    var u := RefundSeats(s, id, addresses);
    SolventRoom(s, id);
    CancelledDue(s.rooms[id]);
    RefundSeatsKeeps(s, id, addresses);
    ReturnBountyKeeps(u, id);
    if a in s.rooms[id].seats {
      NotTheProtocol(s.rooms[id], a);
      SeatMoney(s.rooms[id], a);
    }
  }

  /**
   * The refund loop and the bounty's return reach every wallet in full: each balance rises by exactly what its seat had
   * paid and was not refunded yet, and the author's by the bounty.
   */
  lemma UnplayedPaysEverybody(s: State, id: Hash, a: Address)
    requires Solvent(s) && id in s.rooms && s.rooms[id].status == Cancelled && a != PROTOCOL_ESCROW_ADDRESS
    ensures var r := s.rooms[id];
            BalanceOf(PayoutUnplayed(s, id).accounts, a)
            == BalanceOf(s.accounts, a) + (if a in r.seats && !r.seats[a].refunded then r.seats[a].paidIn else 0)
               + (if a == r.creator && !r.ledger.creatorSettled then r.ledger.startPrizePool else 0)
  {
    hide Sum, Solvent, PayoutUnplayed, PoolTerm, Orphaned, Evolves, RoomOk;
    var t := PayoutUnplayed(s, id);
    SolventRoom(s, id);
    CancelledDue(s.rooms[id]);
    PayoutUnplayedKeeps(s, id);
    PayoutUnplayedAdds(s, id, a);
    UnplayedOwesNothing(s, id, a);
    PutNet(s.rooms, id, t.rooms[id], a);
  }

  // --------------------------------------------------------------- settlement

  /** Nobody has been paid out of a running room, so its record is only what was put in. */
  lemma RunningNet(r: Room, a: Address)
    requires RoomOk(r) && r.status in {Open, Ready, Active}
    ensures TakenBy(r, a) == 0
  {
    hide BooksOk, AttemptsOk;
  }

  lemma CalledOffNet(r: Room, a: Address)
    requires RoomOk(r) && r.status == Open
    ensures Net(CalledOffRoom(r), a) == Net(r, a)
  {
    hide BooksOk, AttemptsOk;
  }

  lemma ActivatedNet(p: Protocol, r: Room, id: Hash, block: int, pooled: int, a: Address)
    requires p.Valid() && RoomOk(r) && r.status == Open && a != PROTOCOL_ESCROW_ADDRESS && (!r.ProtocolOwned() ==> pooled == 0)
    ensures Net(ActivatedRoom(p, r.(status := Ready), id, block, pooled), a) == Net(r, a)
  {
    hide BooksOk, AttemptsOk;
  }

  /** A verdict entitles, and pays nobody. */
  lemma ConcludedNet(p: Protocol, r: Room, block: int, a: Address)
    requires RoomOk(r) && r.status == Active && Judgeable(r)
    ensures Net(ConcludedRoom(p, r, block), a) == Net(r, a)
  {
    hide BooksOk, AttemptsOk, VerdictOf, Forfeited;
    FreshSeats(r);
  }

  lemma FreshSeats(r: Room)
    requires RoomOk(r) && r.status == Active
    ensures forall b :: b in r.seats ==> !r.seats[b].refunded && r.seats[b].payoutState == NoPayout
    ensures r.ending == NotEnded && !r.ledger.creatorSettled
  {
    hide BooksOk, AttemptsOk;
  }

  lemma LaunchedNet(r: Room, block: int, a: Address)
    requires r.attack.Some?
    ensures Net(LaunchedRoom(r, block), a) == Net(r, a) && LaunchedRoom(r, block).status == r.status
  {
  }

  lemma AdvanceAdds(p: Protocol, s: State, id: Hash, a: Address)
    requires p.Valid() && Solvent(s) && DrawsOk(s) && AtRest(s) && id in s.rooms && s.rooms[id].status == Active
    ensures Adds(s, AdvanceAttack(p, s, id), a, 0)
  {
    hide Sum, Solvent, DrawsOk, AtRest, AdvanceAttack, AdvancedForfeit, Net, ConcludedRoom, RoomOk, OnlyRoom, LaunchedRoom;
    var r := s.rooms[id];
    AdvanceIs(p, s, id);
    LaunchedNet(r, s.block, a);
    if Lands(r, s.block) {
      LaunchedSound(s, id);
      ConcludedNet(p, LaunchedRoom(r, s.block), s.block, a);
    }
    OneRoomAdds(s, AdvanceAttack(p, s, id), id, AdvancedRoom(p, r, s.block), a, 0);
  }

  lemma LaunchedSound(s: State, id: Hash)
    requires Solvent(s) && id in s.rooms && s.rooms[id].status == Active && s.rooms[id].attack.Some?
    ensures var q := LaunchedRoom(s.rooms[id], s.block); RoomOk(q) && q.status == Active && Judgeable(q)
  {
    hide Solvent, RoomOk, Orphaned, PoolTerm, Evolves;
    LaunchedStateKeeps(s, id);
    SolventRoom(LaunchedState(s, id), id);
  }

  lemma StartAdds(p: Protocol, s: State, id: Hash, nowMs: int, a: Address)
    requires p.Valid() && Inv(s) && id in s.rooms && s.rooms[id].status == Open && a != PROTOCOL_ESCROW_ADDRESS
    requires DeadlinePassed(s.rooms[id].config, s.block, nowMs)
    requires s.rooms[id].participantCount >= s.rooms[id].config.minPlayers
    ensures Adds(s, SettleLobby(p, s, id, nowMs), a, 0)
  {
    hide Inv, Solvent, DrawsOk, AtRest, Adds, Net, ActivatedRoom, AdvanceAttack, SettleLobby, RoomOk;
    var ready := s.rooms[id].(status := Ready);
    var t := Activate(p, Put(s, id, ready), id);
    SoundRoom(s, id);
    StartedIs(p, s, id, nowMs);
    ActivatedNet(p, s.rooms[id], id, s.block, Pooled(s, ready), a);
    assert s.rooms[id := ready][id := t.rooms[id]] == s.rooms[id := t.rooms[id]];
    OneRoomAdds(s, t, id, t.rooms[id], a, 0);
    AdvanceAdds(p, t, id, a);
    AddsChains(s, t, AdvanceAttack(p, t, id), a, 0, 0);
  }

  lemma CloseUnfilledAdds(p: Protocol, s: State, id: Hash, nowMs: int, a: Address)
    requires p.Valid() && Inv(s) && id in s.rooms && s.rooms[id].status == Open && a != PROTOCOL_ESCROW_ADDRESS
    requires DeadlinePassed(s.rooms[id].config, s.block, nowMs)
    requires s.rooms[id].participantCount < s.rooms[id].config.minPlayers
    ensures Adds(s, SettleLobby(p, s, id, nowMs), a, 0)
  {
    hide Inv, Solvent, PayoutUnplayed, SettleLobby, Net, Adds, RoomOk;
    var c := Put(s, id, CalledOffRoom(s.rooms[id]));
    SoundRoom(s, id);
    CalledOffNet(s.rooms[id], a);
    OneRoomAdds(s, c, id, CalledOffRoom(s.rooms[id]), a, 0);
    UnfilledIs(p, s, id, nowMs);
    CancelledIsSolvent(s, id);
    PayoutUnplayedAdds(c, id, a);
    AddsChains(s, c, PayoutUnplayed(c, id), a, 0, 0);
  }

  lemma SettleAdds(p: Protocol, s: State, id: Hash, nowMs: int, a: Address)
    requires p.Valid() && Inv(s) && a != PROTOCOL_ESCROW_ADDRESS
    ensures Adds(s, SettleLobby(p, s, id, nowMs), a, 0)
  {
    hide Inv, Adds, SettleLobby, AdvanceAttack;
    InvParts(s);
    if id in s.rooms && s.rooms[id].status == Active {
      ActiveSettles(p, s, id, nowMs);
      AdvanceAdds(p, s, id, a);
    } else if id in s.rooms && s.rooms[id].status == Open && DeadlinePassed(s.rooms[id].config, s.block, nowMs) {
      if s.rooms[id].participantCount >= s.rooms[id].config.minPlayers {
        StartAdds(p, s, id, nowMs, a);
      } else {
        CloseUnfilledAdds(p, s, id, nowMs, a);
      }
    } else {
      if id in s.rooms { Resting(s, id); }
      Idle(p, s, id, nowMs);
      SameAdds(s, s, a);
    }
  }

  lemma {:induction false} SettleRoomsAdd(p: Protocol, s: State, count: nat, nowMs: int, a: Address)
    requires p.Valid() && Inv(s) && a != PROTOCOL_ESCROW_ADDRESS
    ensures Adds(s, SettleRooms(p, s, count, nowMs), a, 0)
  {
    hide Inv, SettleLobby, Adds, Continues, NothingOrphaned;
    if count == 0 {
      SameAdds(s, s, a);
    } else {
      var t := SettleRooms(p, s, count - 1, nowMs);
      SettleRoomsAdd(p, s, count - 1, nowMs, a);
      SettleRoomsKeep(p, s, count - 1, nowMs);
      SettleAdds(p, t, count, nowMs, a);
      AddsChains(s, t, SettleLobby(p, t, count, nowMs), a, 0, 0);
    }
  }

  // ------------------------------------------------------------------- draws

  lemma SettleDrawAdds(s: State, id: Hash, a: Address)
    requires a != PROTOCOL_ESCROW_ADDRESS
    ensures Adds(s, SettleProtocolDraw(s, id), a, 0)
  {
    hide Sum, Net;
    var t := SettleProtocolDraw(s, id);
    if t == s {
      SameAdds(s, s, a);
    } else {
      SettledNet(s.rooms[id], a);
      OneRoomAdds(s, t, id, Settled(s.rooms[id]), a, 0);
    }
  }

  lemma {:induction false} SettleDrawsAdd(s: State, count: nat, a: Address)
    requires a != PROTOCOL_ESCROW_ADDRESS
    ensures Adds(s, SettleProtocolDraws(s, count), a, 0)
  {
    hide SettleProtocolDraw, Adds;
    if count == 0 {
      SameAdds(s, s, a);
    } else {
      var t := SettleProtocolDraws(s, count - 1);
      SettleDrawsAdd(s, count - 1, a);
      SettleDrawAdds(t, count, a);
      AddsChains(s, t, SettleProtocolDraw(t, count), a, 0, 0);
    }
  }

  lemma OpenDrawAdds(p: Protocol, s: State, nowMs: int, hash: Hash, a: Address)
    requires p.Valid() && hash !in s.rooms && a != PROTOCOL_ESCROW_ADDRESS
    ensures Adds(s, OpenGlobalDefense(p, s, nowMs, hash).state, a, 0)
  {
    hide Sum, Nets, UpcomingDraw;
    var tx := OpenGlobalDefense(p, s, nowMs, hash);
    if tx.Confirmed? {
      OneRoomAdds(s, tx.state, hash, tx.state.rooms[hash], a, 0);
    } else {
      SameAdds(s, s, a);
    }
  }

  lemma MaybeOpenAdds(p: Protocol, s: State, nowMs: int, a: Address)
    requires p.Valid() && Inv(s) && a != PROTOCOL_ESCROW_ADDRESS
    ensures Adds(s, MaybeOpenGlobalDefense(p, s, nowMs), a, 0)
  {
    hide Inv, OpenGlobalDefense, IsGlobalDefenseDue, Adds;
    SameAdds(s, s, a);
    if IsGlobalDefenseDue(p, s) {
      FreshId(s);
      SameAdds(s, NextHash(s), a);
      OpenDrawAdds(p, NextHash(s), nowMs, s.txCounter + 1, a);
      AddsChains(s, NextHash(s), MaybeOpenGlobalDefense(p, s, nowMs), a, 0, 0);
    }
  }

  lemma SettleEverythingAdds(p: Protocol, s: State, nowMs: int, a: Address)
    requires p.Valid() && Inv(s) && a != PROTOCOL_ESCROW_ADDRESS
    ensures Adds(s, SettleEverything(p, s, nowMs), a, 0)
  {
    hide Inv, Adds, SettleRooms, SettleProtocolDraws, MaybeTopUpGlobalDefense, MaybeOpenGlobalDefense, Continues, NothingOrphaned;
    var t := SettleRooms(p, s, s.txCounter, nowMs);
    var u := SettleProtocolDraws(t, s.txCounter);
    SettleRoomsKeep(p, s, s.txCounter, nowMs);
    SettleRoomsAdd(p, s, s.txCounter, nowMs, a);
    SettleDrawsKeep(t, s.txCounter);
    SettleDrawsAdd(t, s.txCounter, a);
    TopUpIdles(p, u);
    MaybeOpenAdds(p, u, nowMs, a);
    AddsChains(s, t, u, a, 0, 0);
    AddsChains(s, u, SettleEverything(p, s, nowMs), a, 0, 0);
  }

  // ------------------------------------------------------------------- writes

  /** A charge comes out of its wallet and nobody else's. */
  lemma Charged(s: State, from: Address, amount: int, a: Address)
    requires from != PROTOCOL_ESCROW_ADDRESS && a != PROTOCOL_ESCROW_ADDRESS && Escrow(s, from, amount).Some?
    ensures var t := Escrow(s, from, amount).value;
            BalanceOf(t.accounts, a) == BalanceOf(s.accounts, a) - (if a == from then amount else 0) && t == s.(accounts := t.accounts)
  {
  }

  lemma CreateAdds(p: Protocol, s: State, from: Address, config: LobbyConfig, value: int, nowMs: int, hash: Hash, a: Address)
    requires p.Valid() && hash !in s.rooms && from != PROTOCOL_ESCROW_ADDRESS && a != PROTOCOL_ESCROW_ADDRESS
    ensures Adds(s, ApplyCreateLobby(p, s, from, config, value, nowMs, hash).state, a, 0)
  {
    hide Sum, Nets, Escrow, IsLegalConfig, Adds;
    var tx := ApplyCreateLobby(p, s, from, config, value, nowMs, hash);
    if tx.Confirmed? {
      Charged(s, from, value, a);
      OneRoomAdds(s, tx.state, hash, MintedRoom(p, from, config, value), a, 0);
    } else {
      SameAdds(s, s, a);
    }
  }

  /** What a wallet's own repeated join wipes off its record of this room. */
  function WipedBy(s: State, from: Address, id: Hash, a: Address): int {
    if a == from && id in s.rooms && from in s.rooms[id].seats then s.rooms[id].seats[from].paidIn else 0
  }

  lemma JoinedNet(r: Room, from: Address, a: Address)
    requires RoomOk(r) && r.status == Open && from != PROTOCOL_ESCROW_ADDRESS && a != PROTOCOL_ESCROW_ADDRESS
    ensures Net(Joined(r, from), a)
            == Net(r, a) + if a == from then (if a in r.seats then r.seats[a].paidIn else 0) - JoinCost(r) else 0
  {
    hide JoinCost, Commission;
    RunningNet(r, a);
    Stages(r);
    hide RoomOk;
  }

  lemma JoinAdds(s: State, from: Address, id: Hash, value: int, nowMs: int, a: Address)
    requires Inv(s) && from != PROTOCOL_ESCROW_ADDRESS && a != PROTOCOL_ESCROW_ADDRESS
    ensures var tx := ApplyJoinLobby(s, from, id, value, nowMs);
            Adds(s, tx.state, a, if tx.Confirmed? then WipedBy(s, from, id, a) else 0)
  {
    hide Inv, Adds, Net, Escrow, Joined, JoinCost, RoomOk;
    var tx := ApplyJoinLobby(s, from, id, value, nowMs);
    if tx.Confirmed? {
      var r := s.rooms[id];
      SoundRoom(s, id);
      Charged(s, from, JoinCost(r), a);
      JoinedNet(r, from, a);
      OneRoomAdds(s, tx.state, id, Joined(r, from), a, WipedBy(s, from, id, a));
    } else {
      SameAdds(s, s, a);
    }
  }

  /** Settled once, a room answers a call as if it had been settled all along. */
  lemma SettledOnce(p: Protocol, s: State, id: Hash, nowMs: int, a: Address)
    requires p.Valid() && Inv(s) && id in s.rooms && a != PROTOCOL_ESCROW_ADDRESS
    ensures var u := SettleLobby(p, s, id, nowMs);
            && Inv(u) && id in u.rooms && SettleLobby(p, u, id, nowMs) == u && Adds(s, u, a, 0)
            && RoomOk(u.rooms[id]) && u.rooms[id].status != Ready
  {
    hide Inv, SettleLobby, Adds, RoomOk, OnlyRoom;
    var u := SettleLobby(p, s, id, nowMs);
    SettleKeeps(p, s, id, nowMs);
    SettleAdds(p, s, id, nowMs, a);
    SettlingAgainChangesNothing(p, s, id, nowMs);
    SoundRoom(u, id);
    Resting(u, id);
  }

  lemma NotShort(s: State)
    requires Inv(s)
    ensures !s.cannotPay
  {
    hide Solvent, DrawsOk, JackpotOk, AtRest;
    NeverShort(s);
  }

  lemma LeftNet(r: Room, from: Address, a: Address)
    requires RoomOk(r) && r.status == Open && from in r.seats
    ensures Net(Left(r, from), a) == Net(r, a) + if a == from then r.seats[a].paidIn else 0
  {
    RunningNet(r, a);
    Stages(r);
    hide RoomOk;
  }

  lemma LeaveAdds(p: Protocol, s: State, from: Address, id: Hash, nowMs: int, a: Address)
    requires p.Valid() && Inv(s) && id in s.rooms && from != PROTOCOL_ESCROW_ADDRESS && a != PROTOCOL_ESCROW_ADDRESS
    ensures Adds(s, ApplyLeaveLobby(p, s, from, id, nowMs).state, a, 0)
  {
    hide Inv, Adds, Net, SettleLobby, OnlyRoom, Left, PayOut, RoomOk;
    SettledOnce(p, s, id, nowMs, a);
    var u := SettleLobby(p, s, id, nowMs);
    var tx := ApplyLeaveLobby(p, s, from, id, nowMs);
    if tx.Confirmed? {
      var r := u.rooms[id];
      LeaveKeeps(p, u, from, id, nowMs);
      NotShort(tx.state);
      SeatMoney(r, from);
      PaidUnlessShort(Put(u, id, Left(r, from)), from, r.seats[from].paidIn, a);
      LeftNet(r, from, a);
      OneRoomAdds(u, tx.state, id, Left(r, from), a, 0);
      AddsChains(s, u, tx.state, a, 0, 0);
    }
  }

  lemma BoughtNet(r: Room, from: Address, a: Address)
    requires RoomOk(r) && r.status in {Open, Ready, Active} && from in r.seats
    ensures Net(Bought(r, from), a) == Net(r, a) - if a == from then r.config.probePrice else 0
  {
    RunningNet(r, a);
    Stages(r);
    hide RoomOk;
  }

  lemma BuyAdds(p: Protocol, s: State, from: Address, id: Hash, value: int, nowMs: int, a: Address)
    requires p.Valid() && Inv(s) && id in s.rooms && from != PROTOCOL_ESCROW_ADDRESS && a != PROTOCOL_ESCROW_ADDRESS
    ensures Adds(s, ApplyBuyDrone(p, s, from, id, value, nowMs).state, a, 0)
  {
    hide Inv, Adds, Net, SettleLobby, Escrow, Bought, RoomOk;
    SettledOnce(p, s, id, nowMs, a);
    var u := SettleLobby(p, s, id, nowMs);
    var tx := ApplyBuyDrone(p, s, from, id, value, nowMs);
    if tx.Confirmed? {
      var r := u.rooms[id];
      Charged(u, from, r.config.probePrice, a);
      BoughtNet(r, from, a);
      OneRoomAdds(u, tx.state, id, Bought(r, from), a, 0);
      AddsChains(s, u, tx.state, a, 0, 0);
    }
  }

  /** Acting and revealing are free. */
  lemma FreeNet(r: Room, t: Room, a: Address)
    requires t == r.(seats := t.seats, attempts := t.attempts, points := t.points, revealed := t.revealed)
    requires t.seats.Keys == r.seats.Keys
    requires a in r.seats ==> t.seats[a].paidIn == r.seats[a].paidIn && t.seats[a].refunded == r.seats[a].refunded
                              && t.seats[a].payoutState == r.seats[a].payoutState
    ensures Net(t, a) == Net(r, a)
  {
  }

  lemma ActionAdds(p: Protocol, s: State, from: Address, id: Hash, envelope: SealedRequest, nowMs: int, hash: Hash, a: Address)
    requires p.Valid() && Inv(s) && id in s.rooms && a != PROTOCOL_ESCROW_ADDRESS
    ensures Adds(s, ApplyPrivateAction(p, s, from, id, envelope, nowMs, hash).state, a, 0)
  {
    hide Inv, Adds, Net, SettleLobby, RoomOk;
    SettledOnce(p, s, id, nowMs, a);
    var u := SettleLobby(p, s, id, nowMs);
    var t := ApplyPrivateAction(p, s, from, id, envelope, nowMs, hash).state;
    if t != u {
      FreeNet(u.rooms[id], t.rooms[id], a);
      OneRoomAdds(u, t, id, t.rooms[id], a, 0);
      AddsChains(s, u, t, a, 0, 0);
    }
  }

  lemma RevealAdds(p: Protocol, s: State, from: Address, id: Hash, attackId: int, nowMs: int, a: Address)
    requires p.Valid() && Inv(s) && id in s.rooms && a != PROTOCOL_ESCROW_ADDRESS
    ensures Adds(s, ApplyRevealAttack(p, s, from, id, attackId, nowMs).state, a, 0)
  {
    hide Inv, Adds, Net, SettleLobby, RoomOk;
    SettledOnce(p, s, id, nowMs, a);
    var u := SettleLobby(p, s, id, nowMs);
    var t := ApplyRevealAttack(p, s, from, id, attackId, nowMs).state;
    if t != u {
      FreeNet(u.rooms[id], t.rooms[id], a);
      OneRoomAdds(u, t, id, t.rooms[id], a, 0);
      AddsChains(s, u, t, a, 0, 0);
    }
  }

  lemma ClaimedNet(r: Room, from: Address, a: Address)
    requires Won(r) && from in r.seats && r.seats[from].payoutState == PayoutPending
    ensures Net(Claimed(r, from), a) == Net(r, a) + if a == from then r.outcome.value.rewardPerWinner else 0
    ensures Claimed(r, from).creator == r.creator && Claimed(r, from).ledger.creatorSettled == r.ledger.creatorSettled
    ensures CreatorShare(Claimed(r, from)) == CreatorShare(r) == CompletedCreatorDue(r)
  {
  }

  /** A winner's claim takes the share, and the author's due with it if the winner is the author. */
  lemma RewardedNet(r: Room, from: Address, attackId: int, a: Address)
    requires RoomOk(r) && RewardRefusal(r, from, attackId).None?
    ensures from in r.seats && r.outcome.Some? && r.outcome.value.rewardPerWinner >= 0 && ClaimedFee(r, from) >= 0
    ensures Net(Rewarded(r, from), a) == Net(r, a) + if a == from then r.outcome.value.rewardPerWinner + ClaimedFee(r, from) else 0
  {
    hide RoomOk, Net, Claimed, Settled, CreatorShare, CompletedCreatorDue, RewardRefusal, Won;
    WinnerIsOwed(r, from, attackId);
    ClaimedNet(r, from, a);
    if ClaimedFee(r, from) > 0 { SettledNet(Claimed(r, from), a); }
  }

  lemma ClaimRewardAdds(p: Protocol, s: State, from: Address, id: Hash, attackId: int, nowMs: int, a: Address)
    requires p.Valid() && Inv(s) && id in s.rooms && from != PROTOCOL_ESCROW_ADDRESS && a != PROTOCOL_ESCROW_ADDRESS
    ensures Adds(s, ApplyClaimReward(p, s, from, id, attackId, nowMs).state, a, 0)
  {
    hide Inv, Adds, Net, SettleLobby, OnlyRoom, Rewarded, ClaimedFee, PayOut, RoomOk, RewardRefusal;
    SettledOnce(p, s, id, nowMs, a);
    var u := SettleLobby(p, s, id, nowMs);
    var tx := ApplyClaimReward(p, s, from, id, attackId, nowMs);
    if tx.Confirmed? {
      var r := u.rooms[id];
      ClaimRewardKeeps(p, u, from, id, attackId, nowMs);
      NotShort(tx.state);
      RewardedNet(r, from, attackId, a);
      PaidUnlessShort(Put(u, id, Rewarded(r, from)), from, r.outcome.value.rewardPerWinner + ClaimedFee(r, from), a);
      OneRoomAdds(u, tx.state, id, Rewarded(r, from), a, 0);
      AddsChains(s, u, tx.state, a, 0, 0);
    }
  }

  lemma PaidBackNet(r: Room, from: Address, a: Address)
    requires RoomOk(r) && Refunding(r)
    ensures SeatRefund(r, from) >= 0 && BountyRefund(r, from) >= 0
    ensures Net(PaidBack(r, from), a) == Net(r, a) + if a == from then SeatRefund(r, from) + BountyRefund(r, from) else 0
  {
    hide RoomOk, Net, Refunded, Settled;
    var back := if SeatRefund(r, from) > 0 then Refunded(r, from) else r;
    if SeatRefund(r, from) > 0 {
      RefundedNet(r, from, a);
      RefundedKeepsBounty(r, from);
    }
    if BountyRefund(r, from) > 0 { SettledNet(back, a); }
  }

  lemma RefundedKeepsBounty(r: Room, from: Address)
    requires from in r.seats
    ensures var t := Refunded(r, from); t.creator == r.creator && t.ledger == r.ledger && t.ending == r.ending
  {
  }

  lemma ClaimRefundAdds(p: Protocol, s: State, from: Address, id: Hash, nowMs: int, a: Address)
    requires p.Valid() && Inv(s) && id in s.rooms && from != PROTOCOL_ESCROW_ADDRESS && a != PROTOCOL_ESCROW_ADDRESS
    ensures Adds(s, ApplyClaimRefund(p, s, from, id, nowMs).state, a, 0)
  {
    hide Inv, Adds, Net, SettleLobby, OnlyRoom, PaidBack, SeatRefund, BountyRefund, PayOut, RoomOk;
    SettledOnce(p, s, id, nowMs, a);
    var u := SettleLobby(p, s, id, nowMs);
    var tx := ApplyClaimRefund(p, s, from, id, nowMs);
    if tx.Confirmed? {
      var r := u.rooms[id];
      ClaimRefundKeeps(p, u, from, id, nowMs);
      NotShort(tx.state);
      PaidBackNet(r, from, a);
      PaidUnlessShort(Put(u, id, PaidBack(r, from)), from, SeatRefund(r, from) + BountyRefund(r, from), a);
      OneRoomAdds(u, tx.state, id, PaidBack(r, from), a, 0);
      AddsChains(s, u, tx.state, a, 0, 0);
    }
  }

  lemma ShareIsTheSettlement(r: Room)
    requires RoomOk(r) && r.ending != NotEnded && !r.ledger.creatorSettled
    ensures CreatorShare(r) == (if r.ending == Completed then CompletedCreatorDue(r) else r.ledger.startPrizePool) && CreatorShare(r) >= 0
  {
    hide RoomOk, CompletedCreatorDue;
    SettlementIsCreatorsDue(r);
  }

  lemma SettleCreatorAdds(p: Protocol, s: State, from: Address, id: Hash, nowMs: int, a: Address)
    requires p.Valid() && Inv(s) && id in s.rooms && a != PROTOCOL_ESCROW_ADDRESS
    ensures Adds(s, ApplySettleCreator(p, s, from, id, nowMs).state, a, 0)
  {
    hide Inv, Adds, Net, SettleLobby, OnlyRoom, Settled, CompletedCreatorDue, CreatorShare, PayOut, RoomOk;
    SettledOnce(p, s, id, nowMs, a);
    var u := SettleLobby(p, s, id, nowMs);
    var t := ApplySettleCreator(p, s, from, id, nowMs).state;
    if t != u {
      var r := u.rooms[id];
      SettleCreatorKeeps(p, u, from, id, nowMs);
      NotShort(t);
      ShareIsTheSettlement(r);
      SettledNet(r, a);
      if !r.ProtocolOwned() && CreatorShare(r) > 0 { PaidUnlessShort(Put(u, id, Settled(r)), r.creator, CreatorShare(r), a); }
      OneRoomAdds(u, t, id, Settled(r), a, 0);
      AddsChains(s, u, t, a, 0, 0);
    }
  }

  // ------------------------------------------------------------------ every step

  /** What this step wipes off the wallet's records: a repeated join of its own. */
  function Lost(p: Protocol, s: State, step: Step, a: Address): int
    requires p.limits.epochBlocks > 0
  {
    if step.Write? && step.from == a && step.call.JoinLobby? then Overwritten(p, s, step, step.call.lobbyId) else 0
  }

  lemma WriteAdds(p: Protocol, s: State, from: Address, call: Call, nowMs: int, a: Address)
    requires p.Valid() && Inv(s) && from != PROTOCOL_ESCROW_ADDRESS && a != PROTOCOL_ESCROW_ADDRESS
    ensures Adds(s, WriteContract(p, s, from, call, nowMs).state, a, Lost(p, s, Write(from, call, nowMs), a))
  {
    hide Inv, Adds, ApplyCreateLobby, OpenGlobalDefense, ApplyJoinLobby, ApplyLeaveLobby, ApplyBuyDrone, ApplyPrivateAction,
         ApplyRevealAttack, ApplyClaimReward, ApplyClaimRefund, ApplySettleCreator;
    NextHashKeeps(s);
    FreshId(s);
    var u := NextHash(s);
    var t, lost := WriteContract(p, s, from, call, nowMs).state, Lost(p, s, Write(from, call, nowMs), a);
    SameAdds(s, u, a);
    if !call.CreateLobby? && !call.OpenDraw? && !call.CollectProbe? && call.lobbyId !in u.rooms {
      UnknownLobby(p, s, from, call, nowMs);
    } else {
      match call {
        case CreateLobby(config, value) => CreateAdds(p, u, from, config, value, nowMs, u.txCounter, a);
        case JoinLobby(id, value) => JoinAdds(u, from, id, value, nowMs, a);
        case LeaveLobby(id) => LeaveAdds(p, u, from, id, nowMs, a);
        case BuyDrone(id, value) => BuyAdds(p, u, from, id, value, nowMs, a);
        case SubmitPrivateAction(id, envelope) => ActionAdds(p, u, from, id, envelope, nowMs, u.txCounter, a);
        case RevealAttack(id, attackId) => RevealAdds(p, u, from, id, attackId, nowMs, a);
        case ClaimReward(id, attackId) => ClaimRewardAdds(p, u, from, id, attackId, nowMs, a);
        case ClaimRefund(id) => ClaimRefundAdds(p, u, from, id, nowMs, a);
        case SettleCreator(id) => SettleCreatorAdds(p, u, from, id, nowMs, a);
        case OpenDraw => OpenDrawAdds(p, u, nowMs, u.txCounter, a);
        case CollectProbe => SameAdds(u, u, a);
      }
      AddsChains(s, u, t, a, 0, lost);
    }
  }

  /** One step of anything moves a wallet's balance by exactly what it moves the wallet's records by. */
  lemma NextAdds(p: Protocol, s: State, step: Step, a: Address)
    requires p.Valid() && Inv(s) && IsPlayerStep(step) && a != PROTOCOL_ESCROW_ADDRESS
    ensures Adds(s, Next(p, s, step), a, Lost(p, s, step, a))
  {
    hide Inv, Adds, SettleLobby, SettleRooms, SettleEverything, WriteContract, MaybeOpenGlobalDefense, MaybeTopUpGlobalDefense;
    match step {
      case Mine(nowMs) =>
        var t := s.(block := s.block + 1);
        ClockKeeps(s);
        SameAdds(s, t, a);
        TopUpIdles(p, t);
        MaybeOpenAdds(p, t, nowMs, a);
        AddsChains(s, t, Next(p, s, step), a, 0, 0);
      case ReadLobby(id, nowMs) => SettleAdds(p, s, id, nowMs, a);
      case ReadEverything(nowMs) => SettleEverythingAdds(p, s, nowMs, a);
      case Inspect(nowMs) => SettleRoomsAdd(p, s, s.txCounter, nowMs, a);
      case Write(from, call, nowMs) => WriteAdds(p, s, from, call, nowMs, a);
    }
  }

  // ------------------------------------------------------------------ whole runs

  /** What a run's repeated joins wiped off this wallet's records. */
  function TotalLost(p: Protocol, s: State, steps: seq<Step>, a: Address): int
    requires p.limits.epochBlocks > 0
    decreases |steps|
  {
    if steps == [] then 0
    else TotalLost(p, s, steps[..|steps| - 1], a) + Lost(p, Run(p, s, steps[..|steps| - 1]), steps[|steps| - 1], a)
  }

  lemma {:induction false} RunAdds(p: Protocol, s: State, steps: seq<Step>, a: Address)
    requires p.Valid() && Inv(s) && (forall step :: step in steps ==> IsPlayerStep(step)) && a != PROTOCOL_ESCROW_ADDRESS
    ensures Adds(s, Run(p, s, steps), a, TotalLost(p, s, steps, a))
    decreases |steps|
  {
    hide Inv, Adds, Next, Continues, Orphaned, IsPlayerStep, Lost;
    if steps == [] {
      SameAdds(s, s, a);
    } else {
      var before, last := steps[..|steps| - 1], steps[|steps| - 1];
      var t := Run(p, s, before);
      RunAdds(p, s, before, a);
      RunKeeps(p, s, before);
      NextAdds(p, t, last, a);
      AddsChains(s, t, Next(p, t, last), a, TotalLost(p, s, before, a), Lost(p, t, last, a));
    }
  }

  ghost function Outlays(rooms: map<Hash, Room>, a: Address): map<Hash, int> {
    map id | id in rooms :: Outlay(rooms[id], a)
  }

  ghost function Takes(rooms: map<Hash, Room>, a: Address): map<Hash, int> {
    map id | id in rooms :: TakenBy(rooms[id], a)
  }

  lemma NetsSplit(rooms: map<Hash, Room>, a: Address)
    ensures Sum(Takes(rooms, a)) == Sum(Nets(rooms, a)) + Sum(Outlays(rooms, a))
  {
    hide Sum, TakenBy, Outlay;
    SumAdd(Nets(rooms, a), Outlays(rooms, a), Takes(rooms, a));
  }

  lemma SharesAreNotNegative(r: Room, a: Address)
    requires RoomOk(r)
    ensures 0 <= TakenBy(r, a)
    ensures a in r.seats ==> 0 <= SeatTaken(r, r.seats[a]) <= SeatShare(r, r.seats[a])
  {
    hide Sum, AttemptsOk;
    FeesNonNegative(r);
    SeatDuesNonNegative(r);
    if a in r.seats { assert SeatDues(r)[a] == SeatDue(r, r.seats[a]); }
    if Won(r) { ShareNonNegative(r.ledger.rewardPool, |r.outcome.value.Winners()|); }
  }

  /**
   * After any run every wallet adds up, to the wei: its balance is what it opened with, less what it put into every room -
   * seats and mints - plus what it has taken of its entitlements there, less only what its own repeated joins wiped off.
   */
  lemma EveryWalletAddsUp(p: Protocol, initialBlock: int, steps: seq<Step>, a: Address)
    requires p.Valid() && (forall step :: step in steps ==> IsPlayerStep(step)) && a != PROTOCOL_ESCROW_ADDRESS
    ensures var g := CreateEmulatorState(initialBlock);
            var t := Run(p, g, steps);
            && BalanceOf(t.accounts, a)
               == DEFAULT_EMULATOR_BALANCE - Sum(Outlays(t.rooms, a)) + Sum(Takes(t.rooms, a)) - TotalLost(p, g, steps, a)
            && (forall id :: id in t.rooms ==> 0 <= TakenBy(t.rooms[id], a))
  {
    hide Sum, Inv, Run, TotalLost, IsPlayerStep, TakenBy, Outlay, Continues, Orphaned, RoomOk;
    var g := CreateEmulatorState(initialBlock);
    var t := Run(p, g, steps);
    GenesisIsSound(initialBlock);
    RunKeeps(p, g, steps);
    RunAdds(p, g, steps, a);
    NetsSplit(t.rooms, a);
    SumZero(Nets(g.rooms, a));
    forall id | id in t.rooms
      ensures 0 <= TakenBy(t.rooms[id], a)
    {
      SoundRoom(t, id);
      SharesAreNotNegative(t.rooms[id], a);
    }
  }
}
