/** Over whole runs: what others keep sealed leaves no mark on the chain, nor on any answer, until its room's impact. */
module NonInterference {
  import opened Options
  import opened World
  import opened Interception
  import opened GlobalDefense
  import opened EmulatorState
  import opened GameContract
  import opened Accounting
  import opened RoomMoves
  import opened RoomHistory
  import opened Solvency
  import opened Runs
  import opened LazySettlement
  import opened Redaction
  import opened Timetable

  // --------------------------------------------------------------- alike steps

  predicate OnTheGrid(p: Protocol, x: DefensePoint) { IsValidSector(x.sector, p.grid) && IsInsideSector(x) }

  /** The same request, or the same Defense placed elsewhere on the grid. */
  predicate AlikeRequests(p: Protocol, a: PrivateActionRequest, b: PrivateActionRequest) {
    || a == b
    || (a.DefenseSubmit? && b.DefenseSubmit? && a.attackId == b.attackId
        && OnTheGrid(p, a.defensePoint) && OnTheGrid(p, b.defensePoint))
  }

  /** The same step, but for where another wallet's sealed Defense was placed. */
  predicate AlikeSteps(p: Protocol, a: Step, b: Step, viewer: Viewer) {
    || a == b
    || (a.Write? && b.Write? && a.from == b.from && a.nowMs == b.nowMs && viewer != Some(a.from)
        && a.call.SubmitPrivateAction? && b.call.SubmitPrivateAction? && a.call.lobbyId == b.call.lobbyId
        && a.call.envelope.key == b.call.envelope.key
        && AlikeRequests(p, a.call.envelope.request, b.call.envelope.request))
  }

  /** Both states are sound, and differ only in what is sealed from this viewer. */
  ghost predicate Indistinct(p: Protocol, s: State, t: State, viewer: Viewer)
    requires p.limits.epochBlocks > 0
  {
    Inv(s) && Inv(t) && Timely(p, s, s.txCounter) && Timely(p, t, t.txCounter) && LowEq(s, t, viewer)
  }

  // ------------------------------------------------------------ rooms that differ

  /** A room that differs is in flight or waiting to launch: nothing about it is final. */
  lemma DifferingRoom(s: State, t: State, viewer: Viewer, id: Hash)
    requires Inv(s) && LowEq(s, t, viewer) && id in s.rooms && s.rooms[id] != t.rooms[id]
    ensures id in t.rooms && LowEqRooms(s.rooms[id], t.rooms[id], viewer) && Undecided(s.rooms[id], s.block)
    ensures var r := s.rooms[id];
            r.status == Active && r.ending == NotEnded && r.outcome.None? && r.revealed.None? && r.trajectory.Some?
            && (forall x :: x in r.attempts ==> x.id in r.points)
  {
    hide Solvent, DrawsOk, JackpotOk, LowEqRooms, RoomOk, BooksOk;
    SolventRoom(s, id);
    HiddenParts(s.rooms[id], t.rooms[id], viewer, s.block);
    UndecidedIsActive(s.rooms[id], s.block);
    AttemptsAreFiled(s.rooms[id]);
    Verdicts(s.rooms[id]);
    UndecidedIsRunning(s.rooms[id], s.block);
  }

  lemma AttemptsAreFiled(r: Room)
    requires RoomOk(r)
    ensures forall x :: x in r.attempts ==> x.id in r.points
  {
    hide BooksOk;
    assert AttemptsOk(r);
    forall x | x in r.attempts
      ensures x.id in r.points
    {
      var i :| 0 <= i < |r.attempts| && r.attempts[i] == x;
      assert AttemptOk(r, r.attempts[i]);
    }
  }

  lemma SeatLow(r: Room, q: Room, viewer: Viewer, block: int, seats: map<Address, Participant>, ledger: LobbyLedger)
    requires HiddenAlike(r, q, viewer, block)
    ensures HiddenAlike(r.(seats := seats, ledger := ledger), q.(seats := seats, ledger := ledger), viewer, block)
  {
  }

  lemma DefendedLow(r: Room, q: Room, viewer: Viewer, block: int, from: Address, x: DefensePoint, y: DefensePoint, hash: Hash)
    requires HiddenAlike(r, q, viewer, block) && Undecided(r, block) && from in r.seats && from in q.seats
    requires x == y || viewer != Some(from)
    requires hash !in r.points && hash !in q.points && forall z :: z in r.attempts ==> z.id in r.points
    ensures HiddenAlike(Defended(r, from, x, block, hash), Defended(q, from, y, block, hash), viewer, block)
  {
  }

  // ------------------------------------------------------------------- the writes

  lemma NextHashLow(p: Protocol, s: State, t: State, viewer: Viewer)
    requires p.Valid() && Indistinct(p, s, t, viewer)
    ensures LowEq(NextHash(s), NextHash(t), viewer) && Inv(NextHash(s)) && Inv(NextHash(t))
    ensures Timely(p, NextHash(s), s.txCounter) && Timely(p, NextHash(t), t.txCounter) && s.txCounter == t.txCounter
  {
    hide Inv, Punctual, HiddenAlike;
    NextHashKeeps(s);
    NextHashKeeps(t);
  }

  lemma CreateIsBlind(p: Protocol, s: State, t: State, viewer: Viewer, from: Address, config: LobbyConfig, value: int, nowMs: int,
                      hash: Hash)
    requires p.Valid() && LowEq(s, t, viewer)
    ensures LowEq(ApplyCreateLobby(p, s, from, config, value, nowMs, hash).state,
                  ApplyCreateLobby(p, t, from, config, value, nowMs, hash).state, viewer)
  {
    hide MintedRoom, IsLegalConfig, HiddenAlike;
    forall r: Room
      ensures HiddenAlike(r, r, viewer, s.block)
    {
      SameIsHidden(r, viewer, s.block);
    }
  }

  lemma OpenIsBlind(p: Protocol, s: State, t: State, viewer: Viewer, nowMs: int, hash: Hash)
    requires p.Valid() && LowEq(s, t, viewer)
    ensures LowEq(OpenGlobalDefense(p, s, nowMs, hash).state, OpenGlobalDefense(p, t, nowMs, hash).state, viewer)
  {
    hide DrawRoom, UpcomingDraw, HiddenAlike;
    forall r: Room
      ensures HiddenAlike(r, r, viewer, s.block)
    {
      SameIsHidden(r, viewer, s.block);
    }
  }

  lemma JoinIsBlind(p: Protocol, s: State, t: State, viewer: Viewer, from: Address, id: Hash, value: int, nowMs: int)
    requires p.Valid() && Inv(s) && LowEq(s, t, viewer)
    ensures LowEq(ApplyJoinLobby(s, from, id, value, nowMs).state, ApplyJoinLobby(t, from, id, value, nowMs).state, viewer)
  {
    hide Inv, HiddenAlike, Joined, JoinCost;
    if id in s.rooms {
      if s.rooms[id] == t.rooms[id] {
        SameIsHidden(Joined(s.rooms[id], from), viewer, s.block);
      } else {
        DifferingRoom(s, t, viewer, id);
      }
    }
  }

  lemma LeaveIsBlind(p: Protocol, s: State, t: State, viewer: Viewer, from: Address, id: Hash, nowMs: int)
    requires p.Valid() && Inv(s) && Inv(t) && LowEq(s, t, viewer)
    ensures LowEq(ApplyLeaveLobby(p, s, from, id, nowMs).state, ApplyLeaveLobby(p, t, from, id, nowMs).state, viewer)
  {
    hide Inv, HiddenAlike, SettleLobby, OnlyRoom;
    SettleIsBlind(p, s, t, viewer, id, nowMs);
    if id in s.rooms {
      SettleKeeps(p, s, id, nowMs);
      var u, v := SettleLobby(p, s, id, nowMs), SettleLobby(p, t, id, nowMs);
      if u.rooms[id] == v.rooms[id] {
        if from in u.rooms[id].seats { SameIsHidden(Left(u.rooms[id], from), viewer, u.block); }
      } else {
        DifferingRoom(u, v, viewer, id);
      }
    }
  }

  lemma BuyIsBlind(p: Protocol, s: State, t: State, viewer: Viewer, from: Address, id: Hash, value: int, nowMs: int)
    requires p.Valid() && Inv(s) && Inv(t) && LowEq(s, t, viewer)
    ensures LowEq(ApplyBuyDrone(p, s, from, id, value, nowMs).state, ApplyBuyDrone(p, t, from, id, value, nowMs).state, viewer)
  {
    hide Inv, HiddenAlike, SettleLobby, OnlyRoom, TakePurchase;
    SettleIsBlind(p, s, t, viewer, id, nowMs);
    if id in s.rooms {
      SettleKeeps(p, s, id, nowMs);
      var u, v := SettleLobby(p, s, id, nowMs), SettleLobby(p, t, id, nowMs);
      SameTerms(u, v, viewer, id);
      BoughtIsBlind(u, v, viewer, from, id, value);
    }
  }

  /** A purchase in settled states. */
  lemma BoughtIsBlind(u: State, v: State, viewer: Viewer, from: Address, id: Hash, value: int)
    requires LowEq(u, v, viewer) && id in u.rooms && id in v.rooms
    ensures LowEq(TakePurchase(u, from, id, value).state, TakePurchase(v, from, id, value).state, viewer)
  {
    hide HiddenAlike;
    SameTerms(u, v, viewer, id);
    var r, q := u.rooms[id], v.rooms[id];
    if from in r.seats {
      SeatLow(r, q, viewer, u.block, Bought(r, from).seats, Bought(r, from).ledger);
    }
  }

  /** What a call looks at before it is accepted is the same in both. */
  lemma SameTerms(s: State, t: State, viewer: Viewer, id: Hash)
    requires LowEq(s, t, viewer) && id in s.rooms
    ensures id in t.rooms
    ensures var r, q := s.rooms[id], t.rooms[id];
            && q == r.(trajectory := q.trajectory, points := q.points) && (r.trajectory.Some? <==> q.trajectory.Some?)
            && r.points.Keys == q.points.Keys && HiddenAlike(r, q, viewer, s.block)
  {
  }

  lemma ActionIsBlind(p: Protocol, s: State, t: State, viewer: Viewer, from: Address, id: Hash, a: SealedRequest, b: SealedRequest,
                      nowMs: int, hash: Hash, n: nat)
    requires p.Valid() && Inv(s) && Inv(t) && LowEq(s, t, viewer) && Timely(p, s, n) && Timely(p, t, n) && n < hash
    requires a.key == b.key && AlikeRequests(p, a.request, b.request) && (a == b || viewer != Some(from))
    ensures LowEq(ApplyPrivateAction(p, s, from, id, a, nowMs, hash).state,
                  ApplyPrivateAction(p, t, from, id, b, nowMs, hash).state, viewer)
  {
    hide Inv, HiddenAlike, SettleLobby, RoomOk, Timely, KeepsTime, ProbeRefusal, DefenseRefusal, Probed, Defended;
    SettleIsBlind(p, s, t, viewer, id, nowMs);
    if id in s.rooms {
      SettledFirst(p, s, id, nowMs, n);
      SettledFirst(p, t, id, nowMs, n);
      var u, v := SettleLobby(p, s, id, nowMs), SettleLobby(p, t, id, nowMs);
      SameTerms(u, v, viewer, id);
      if a.request.ReconProbe? {
        ProbeIsBlind(p, u, v, viewer, id, from, a.request.attackId, hash);
      } else {
        SettledIsUndecided(p, s, id, nowMs);
        DefenseIsBlind(p, u, v, viewer, id, from, a.request.attackId, a.request.defensePoint, b.request.defensePoint, hash, n);
      }
    }
  }

  lemma ProbeIsBlind(p: Protocol, u: State, v: State, viewer: Viewer, id: Hash, from: Address, attackId: int, hash: Hash)
    requires p.Valid() && LowEq(u, v, viewer) && id in u.rooms && id in v.rooms
    ensures ProbeRefusal(u.rooms[id], from, attackId, u.block) == ProbeRefusal(v.rooms[id], from, attackId, v.block)
    ensures ProbeRefusal(u.rooms[id], from, attackId, u.block).None? ==>
              LowEq(Put(u, id, Probed(u.rooms[id], from, u.block, hash)), Put(v, id, Probed(v.rooms[id], from, v.block, hash)), viewer)
  {
    hide HiddenAlike;
    SameTerms(u, v, viewer, id);
    var r, q := u.rooms[id], v.rooms[id];
    if from in r.seats { SeatLow(r, q, viewer, u.block, Probed(r, from, u.block, hash).seats, r.ledger); }
  }

  lemma DefenseIsBlind(p: Protocol, u: State, v: State, viewer: Viewer, id: Hash, from: Address, attackId: int,
                       x: DefensePoint, y: DefensePoint, hash: Hash, n: nat)
    requires p.Valid() && LowEq(u, v, viewer) && id in u.rooms && id in v.rooms && RoomOk(u.rooms[id])
    requires Timely(p, u, n) && Timely(p, v, n) && n < hash
    requires x == y || (viewer != Some(from) && OnTheGrid(p, x) && OnTheGrid(p, y))
    requires u.rooms[id].attack.Some? && u.rooms[id].attack.value.status == AttackLaunched ==> Undecided(u.rooms[id], u.block)
    ensures DefenseRefusal(p, u.rooms[id], from, attackId, x, u.block) == DefenseRefusal(p, v.rooms[id], from, attackId, y, v.block)
    ensures DefenseRefusal(p, u.rooms[id], from, attackId, x, u.block).None? ==>
              LowEq(Put(u, id, Defended(u.rooms[id], from, x, u.block, hash)), Put(v, id, Defended(v.rooms[id], from, y, v.block, hash)),
                    viewer)
  {
    hide HiddenAlike, RoomOk, Defended, DefenseRefusal, LowEq, Timely;
    SameTerms(u, v, viewer, id);
    SameCounter(u, v, viewer);
    AttemptsAreFiled(u.rooms[id]);
    RefusalsAgree(p, u.rooms[id], v.rooms[id], from, attackId, x, y, u.block);
    NotFiledYet(p, u, id, n, hash);
    NotFiledYet(p, v, id, n, hash);
    if DefenseRefusal(p, u.rooms[id], from, attackId, x, u.block).None? {
      DefendedLow(u.rooms[id], v.rooms[id], viewer, u.block, from, x, y, hash);
      PutBothLow(u, v, viewer, id, Defended(u.rooms[id], from, x, u.block, hash), Defended(v.rooms[id], from, y, v.block, hash));
    }
  }

  lemma PutBothLow(u: State, v: State, viewer: Viewer, id: Hash, r: Room, q: Room)
    requires LowEq(u, v, viewer) && id in u.rooms && HiddenAlike(r, q, viewer, u.block)
    ensures LowEq(Put(u, id, r), Put(v, id, q), viewer)
  {
    hide HiddenAlike;
  }

  /** Where on the grid the point lies is no reason to refuse it. */
  lemma RefusalsAgree(p: Protocol, r: Room, q: Room, from: Address, attackId: int, x: DefensePoint, y: DefensePoint, block: int)
    requires q == r.(trajectory := q.trajectory, points := q.points) && (x == y || (OnTheGrid(p, x) && OnTheGrid(p, y)))
    ensures DefenseRefusal(p, r, from, attackId, x, block) == DefenseRefusal(p, q, from, attackId, y, block)
    ensures DefenseRefusal(p, r, from, attackId, x, block).None? ==>
              from in r.seats && r.attack.Some? && r.attack.value.status == AttackLaunched
  {
  }

  lemma NotFiledYet(p: Protocol, u: State, id: Hash, n: nat, hash: Hash)
    requires p.Valid() && Timely(p, u, n) && n < hash && id in u.rooms
    ensures hash !in u.rooms[id].points
  {
    hide OnTime;
    assert Punctual(p, u.rooms[id], u.block, n);
  }

  // A claim, a refund, a settlement and a reveal are refused in a room that differs: it has not ended.

  lemma RevealIsBlind(p: Protocol, s: State, t: State, viewer: Viewer, from: Address, id: Hash, attackId: int, nowMs: int)
    requires p.Valid() && Inv(s) && Inv(t) && LowEq(s, t, viewer)
    ensures LowEq(ApplyRevealAttack(p, s, from, id, attackId, nowMs).state, ApplyRevealAttack(p, t, from, id, attackId, nowMs).state, viewer)
  {
    hide Inv, HiddenAlike, SettleLobby, OnlyRoom, Settled, Rewarded, PaidBack, SeatRefund, BountyRefund, CompletedCreatorDue;
    SettleIsBlind(p, s, t, viewer, id, nowMs);
    if id in s.rooms {
      SettleKeeps(p, s, id, nowMs);
      var u, v := SettleLobby(p, s, id, nowMs), SettleLobby(p, t, id, nowMs);
      if u.rooms[id] == v.rooms[id] {
        if u.rooms[id].trajectory.Some? {
          var revealed := LobbyReveal(attackId, u.rooms[id].trajectory.value, from, u.block);
          SameIsHidden(u.rooms[id].(revealed := Some(revealed)), viewer, u.block);
        }
      } else {
        DifferingRoom(u, v, viewer, id);
      }
    }
  }

  lemma RewardIsBlind(p: Protocol, s: State, t: State, viewer: Viewer, from: Address, id: Hash, attackId: int, nowMs: int)
    requires p.Valid() && Inv(s) && Inv(t) && LowEq(s, t, viewer)
    ensures LowEq(ApplyClaimReward(p, s, from, id, attackId, nowMs).state, ApplyClaimReward(p, t, from, id, attackId, nowMs).state, viewer)
  {
    hide Inv, HiddenAlike, SettleLobby, OnlyRoom, Settled, Rewarded, PaidBack, SeatRefund, BountyRefund, CompletedCreatorDue;
    SettleIsBlind(p, s, t, viewer, id, nowMs);
    if id in s.rooms {
      SettleKeeps(p, s, id, nowMs);
      var u, v := SettleLobby(p, s, id, nowMs), SettleLobby(p, t, id, nowMs);
      if u.rooms[id] == v.rooms[id] {
        if RewardRefusal(u.rooms[id], from, attackId).None? { SameIsHidden(Rewarded(u.rooms[id], from), viewer, u.block); }
      } else {
        DifferingRoom(u, v, viewer, id);
      }
    }
  }

  lemma RefundIsBlind(p: Protocol, s: State, t: State, viewer: Viewer, from: Address, id: Hash, nowMs: int)
    requires p.Valid() && Inv(s) && Inv(t) && LowEq(s, t, viewer)
    ensures LowEq(ApplyClaimRefund(p, s, from, id, nowMs).state, ApplyClaimRefund(p, t, from, id, nowMs).state, viewer)
  {
    hide Inv, HiddenAlike, SettleLobby, OnlyRoom, Settled, Rewarded, PaidBack, SeatRefund, BountyRefund, CompletedCreatorDue;
    SettleIsBlind(p, s, t, viewer, id, nowMs);
    if id in s.rooms {
      SettleKeeps(p, s, id, nowMs);
      var u, v := SettleLobby(p, s, id, nowMs), SettleLobby(p, t, id, nowMs);
      if u.rooms[id] == v.rooms[id] {
        SameIsHidden(PaidBack(u.rooms[id], from), viewer, u.block);
      } else {
        DifferingRoom(u, v, viewer, id);
      }
    }
  }

  lemma SettleCreatorIsBlind(p: Protocol, s: State, t: State, viewer: Viewer, from: Address, id: Hash, nowMs: int)
    requires p.Valid() && Inv(s) && Inv(t) && LowEq(s, t, viewer)
    ensures LowEq(ApplySettleCreator(p, s, from, id, nowMs).state, ApplySettleCreator(p, t, from, id, nowMs).state, viewer)
  {
    hide Inv, LowEq, SettleLobby, OnlyRoom, TakeSettlement;
    SettleIsBlind(p, s, t, viewer, id, nowMs);
    SameCounter(s, t, viewer);
    if id in s.rooms {
      SettleKeeps(p, s, id, nowMs);
      SettledIsBlind(SettleLobby(p, s, id, nowMs), SettleLobby(p, t, id, nowMs), viewer, from, id);
    }
  }

  /** A creator's settlement in settled states. */
  lemma SettledIsBlind(u: State, v: State, viewer: Viewer, from: Address, id: Hash)
    requires Inv(u) && LowEq(u, v, viewer) && id in u.rooms && id in v.rooms
    ensures LowEq(TakeSettlement(u, from, id).state, TakeSettlement(v, from, id).state, viewer)
  {
    hide Inv, HiddenAlike, Settled, CompletedCreatorDue;
    if u.rooms[id] == v.rooms[id] {
      SameIsHidden(Settled(u.rooms[id]), viewer, u.block);
    } else {
      DifferingRoom(u, v, viewer, id);
    }
  }

  lemma WriteIsBlind(p: Protocol, s: State, t: State, viewer: Viewer, a: Step, b: Step)
    requires p.Valid() && Indistinct(p, s, t, viewer) && a.Write? && AlikeSteps(p, a, b, viewer)
    ensures LowEq(Next(p, s, a), Next(p, t, b), viewer)
  {
    hide Inv, Timely, LowEq, AlikeRequests, ApplyCreateLobby, OpenGlobalDefense, ApplyJoinLobby, ApplyLeaveLobby, ApplyBuyDrone,
         ApplyPrivateAction, ApplyRevealAttack, ApplyClaimReward, ApplyClaimRefund, ApplySettleCreator;
    NextHashLow(p, s, t, viewer);
    var u, v, from, nowMs, hash := NextHash(s), NextHash(t), a.from, a.nowMs, s.txCounter + 1;
    match a.call {
      case CreateLobby(config, value) => CreateIsBlind(p, u, v, viewer, from, config, value, nowMs, hash);
      case JoinLobby(id, value) => JoinIsBlind(p, u, v, viewer, from, id, value, nowMs);
      case LeaveLobby(id) => LeaveIsBlind(p, u, v, viewer, from, id, nowMs);
      case BuyDrone(id, value) => BuyIsBlind(p, u, v, viewer, from, id, value, nowMs);
      case SubmitPrivateAction(id, envelope) =>
        SameRequests(p, envelope.request);
        ActionIsBlind(p, u, v, viewer, from, id, envelope, b.call.envelope, nowMs, hash, s.txCounter);
      case RevealAttack(id, attackId) => RevealIsBlind(p, u, v, viewer, from, id, attackId, nowMs);
      case ClaimReward(id, attackId) => RewardIsBlind(p, u, v, viewer, from, id, attackId, nowMs);
      case ClaimRefund(id) => RefundIsBlind(p, u, v, viewer, from, id, nowMs);
      case SettleCreator(id) => SettleCreatorIsBlind(p, u, v, viewer, from, id, nowMs);
      case OpenDraw => OpenIsBlind(p, u, v, viewer, nowMs, hash);
      case CollectProbe =>
    }
  }

  lemma SameRequests(p: Protocol, a: PrivateActionRequest)
    ensures AlikeRequests(p, a, a)
  {
  }

  // ------------------------------------------------------------------ every step

  /** No room that differs lands at the next block. */
  predicate NothingLands(s: State, t: State)
    requires t.rooms.Keys == s.rooms.Keys
  {
    forall id :: id in s.rooms && s.rooms[id] != t.rooms[id] ==> Undecided(s.rooms[id], s.block + 1)
  }

  lemma ClockIsBlind(s: State, t: State, viewer: Viewer)
    requires LowEq(s, t, viewer) && NothingLands(s, t)
    ensures LowEq(s.(block := s.block + 1), t.(block := t.block + 1), viewer)
  {
    hide Undecided, LowEqRooms;
  }

  /** One step of anything keeps what is sealed sealed, unless it is the block at which a room that differs lands. */
  lemma NextIsBlind(p: Protocol, s: State, t: State, viewer: Viewer, a: Step, b: Step)
    requires p.Valid() && Indistinct(p, s, t, viewer) && AlikeSteps(p, a, b, viewer) && IsPlayerStep(a) && IsPlayerStep(b)
    requires a.Mine? ==> NothingLands(s, t)
    ensures Indistinct(p, Next(p, s, a), Next(p, t, b), viewer)
  {
    hide Inv, Timely, LowEq, SettleLobby, SettleRooms, SettleEverything, WriteContract, MaybeOpenGlobalDefense,
         MaybeTopUpGlobalDefense, OrphanedBy, Continues, KeepsTime, AlikeRequests, NothingLands;
    NextKeeps(p, s, a);
    NextKeeps(p, t, b);
    NextKeepsTime(p, s, a);
    NextKeepsTime(p, t, b);
    TimelyIfKept(p, s, Next(p, s, a), Next(p, s, a).txCounter);
    TimelyIfKept(p, t, Next(p, t, b), Next(p, t, b).txCounter);
    match a {
      case Mine(nowMs) => MineIsBlind(p, s, t, viewer, nowMs);
      case ReadLobby(id, nowMs) => SettleIsBlind(p, s, t, viewer, id, nowMs);
      case ReadEverything(nowMs) => SettleEverythingIsBlind(p, s, t, viewer, nowMs);
      case Inspect(nowMs) =>
        SameCounter(s, t, viewer);
        SettleRoomsIsBlind(p, s, t, viewer, s.txCounter, nowMs);
      case Write(from, call, nowMs) => WriteIsBlind(p, s, t, viewer, a, b);
    }
  }

  lemma SameCounter(s: State, t: State, viewer: Viewer)
    requires LowEq(s, t, viewer)
    ensures s.txCounter == t.txCounter && s.block == t.block && s.rooms.Keys == t.rooms.Keys
  {
    hide HiddenAlike;
  }

  lemma MineIsBlind(p: Protocol, s: State, t: State, viewer: Viewer, nowMs: int)
    requires p.Valid() && Inv(s) && Inv(t) && LowEq(s, t, viewer) && NothingLands(s, t)
    ensures LowEq(MineBlock(p, s, nowMs), MineBlock(p, t, nowMs), viewer)
  {
    hide Inv, LowEq, MaybeOpenGlobalDefense, MaybeTopUpGlobalDefense, NothingLands;
    SameCounter(s, t, viewer);
    ClockIsBlind(s, t, viewer);
    ClockKeeps(s);
    ClockKeeps(t);
    TopUpIdles(p, s.(block := s.block + 1));
    TopUpIdles(p, t.(block := t.block + 1));
    FreshId(s.(block := s.block + 1));
    OpenDrawIsBlind(p, s.(block := s.block + 1), t.(block := t.block + 1), viewer, nowMs);
  }

  // ------------------------------------------------------------------ whole runs

  /** Step by step alike, and every block mined is ahead of the impact of each room that differs by then. */
  ghost predicate AlikeRuns(p: Protocol, s: State, t: State, viewer: Viewer, a: seq<Step>, b: seq<Step>)
    requires p.limits.epochBlocks > 0
  {
    && |a| == |b|
    && (forall k :: 0 <= k < |a| ==> AlikeSteps(p, a[k], b[k], viewer) && IsPlayerStep(a[k]) && IsPlayerStep(b[k]))
    && (forall k :: 0 <= k < |a| && a[k].Mine? ==> SafeToMine(Run(p, s, a[..k]), Run(p, t, b[..k])))
  }

  predicate SafeToMine(s: State, t: State) { t.rooms.Keys == s.rooms.Keys ==> NothingLands(s, t) }

  lemma {:induction false} RunsStayIndistinct(p: Protocol, s: State, t: State, viewer: Viewer, a: seq<Step>, b: seq<Step>)
    requires p.Valid() && Indistinct(p, s, t, viewer) && AlikeRuns(p, s, t, viewer, a, b)
    ensures Indistinct(p, Run(p, s, a), Run(p, t, b), viewer)
    decreases |a|
  {
    hide Inv, Timely, LowEq, Next, AlikeSteps, IsPlayerStep, NothingLands;
    if a != [] {
      var n := |a| - 1;
      var x, y := a[..n], b[..n];
      forall k | 0 <= k < n
        ensures x[..k] == a[..k] && y[..k] == b[..k]
      {
      }
      assert AlikeRuns(p, s, t, viewer, x, y);
      RunsStayIndistinct(p, s, t, viewer, x, y);
      SameCounter(Run(p, s, x), Run(p, t, y), viewer);
      NextIsBlind(p, Run(p, s, x), Run(p, t, y), viewer, a[n], b[n]);
    }
  }

  /**
   * Two histories from states the viewer cannot tell apart, alike but for where other wallets placed their sealed Defenses:
   * until a room that differs lands, the viewer is answered the same by every read, the clock, every balance and the pool
   * are the same, and so is every seat, ledger and status.
   */
  lemma HistoriesRevealNoCoordinate(p: Protocol, s: State, t: State, viewer: Viewer, a: seq<Step>, b: seq<Step>, q: Query, nowMs: int)
    requires p.Valid() && Indistinct(p, s, t, viewer) && AlikeRuns(p, s, t, viewer, a, b)
    ensures var u, v := Run(p, s, a), Run(p, t, b);
            && ReadContract(p, u, q, viewer, nowMs) == ReadContract(p, v, q, viewer, nowMs)
            && v == u.(rooms := v.rooms) && v.rooms.Keys == u.rooms.Keys
            && forall id :: id in u.rooms ==>
                 v.rooms[id] == u.rooms[id].(trajectory := v.rooms[id].trajectory, points := v.rooms[id].points)
  {
    hide Inv, Timely, Run, AlikeRuns, ReadContract;
    RunsStayIndistinct(p, s, t, viewer, a, b);
    ReadsRevealNoCoordinate(p, Run(p, s, a), Run(p, t, b), q, viewer, nowMs);
  }

  /** From genesis on: whatever other wallets sealed, nobody reads it off the chain before impact. */
  lemma SealedFromGenesis(p: Protocol, initialBlock: int, viewer: Viewer, a: seq<Step>, b: seq<Step>, q: Query, nowMs: int)
    requires p.Valid()
    requires var g := CreateEmulatorState(initialBlock); AlikeRuns(p, g, g, viewer, a, b)
    ensures var g := CreateEmulatorState(initialBlock);
            ReadContract(p, Run(p, g, a), q, viewer, nowMs) == ReadContract(p, Run(p, g, b), q, viewer, nowMs)
  {
    hide Inv, Timely, Run, AlikeRuns, ReadContract;
    var g := CreateEmulatorState(initialBlock);
    GenesisIsSound(initialBlock);
    GenesisIsTimely(p, initialBlock);
    SameRoomsAreHidden(g, viewer);
    HistoriesRevealNoCoordinate(p, g, g, viewer, a, b, q, nowMs);
  }
}
