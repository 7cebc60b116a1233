/** Every change a transition makes to one room keeps the room's invariant and moves its backing by the money that moved. */
module RoomMoves {
  import opened Sums
  import opened Options
  import opened World
  import opened Interception
  import opened GlobalDefense
  import opened EmulatorState
  import opened GameContract
  import opened Accounting

  // ------------------------------------------------- while the room is forming

  lemma MulStep(a: int, n: int)
    ensures a * (n + 1) == a * n + a
    ensures a * (n - 1) == a * n - a
  {
  }

  lemma JoinedSeats(r: Room, from: Address)
    requires BooksOk(r) && from != PROTOCOL_ESCROW_ADDRESS
    ensures var t := Joined(r, from); |t.seats| <= |r.seats| + 1 && forall a :: a in t.seats ==> SeatOk(t, a)
  {
    hide Sum, Orphaned;
    var t := Joined(r, from);
    forall a | a in t.seats
      ensures SeatOk(t, a)
    {
      if a != from { assert SeatOk(r, a); }
    }
  }

  lemma JoinedBooks(r: Room, from: Address)
    requires BooksOk(r) && from != PROTOCOL_ESCROW_ADDRESS && r.participantCount < r.config.maxPlayers
    ensures var t := Joined(r, from);
            BooksOk(t) && Orphaned(t) == Orphaned(r) + if from in r.seats then r.seats[from].paidIn else 0
  {
    hide Sum, SeatOk;
    MulStep(r.config.entryPrice, r.participantCount);
    MulStep(Commission(r), r.participantCount);
    SeatUpdateSums(r.seats, from, NewParticipant(r));
    JoinedSeats(r, from);
    FeesNonNegative(r);
    if from in r.seats { SeatSpendNonNegative(r, from); }
  }

  lemma SeatSpendNonNegative(r: Room, a: Address)
    requires BooksOk(r) && a in r.seats
    ensures r.seats[a].probesPaid >= 0
  {
    hide Sum, Orphaned;
    assert SeatOk(r, a);
  }

  lemma JoinedForms(r: Room, from: Address)
    requires StageOk(r) && r.status == Open
    ensures var t := Joined(r, from);
            && StageOk(t) && t.status == Open && t.ending == r.ending == NotEnded
            && InPlay(t) == InPlay(r) + JoinCost(r)
            && t.ledger.protocolFeeAccrued == r.ledger.protocolFeeAccrued && t.overpaid == r.overpaid
  {
  }

  /** While a room runs, its backing is what is in play, the protocol's fee and the mint surplus. */
  lemma RunningBacking(r: Room)
    requires r.ending == NotEnded
    ensures Backing(r) == InPlay(r) + r.ledger.protocolFeeAccrued + r.overpaid
  {
    hide InPlay, Orphaned, SeatDues, Sum;
  }

  /** Joining backs the room with exactly the cost; a repeated join orphans what the replaced record had paid. */
  lemma JoinedBalances(r: Room, from: Address)
    requires RoomOk(r) && r.status == Open && from != PROTOCOL_ESCROW_ADDRESS
    requires r.participantCount < r.config.maxPlayers
    ensures var t := Joined(r, from);
            && RoomOk(t) && t.status == Open && Backing(t) == Backing(r) + JoinCost(r)
            && Orphaned(t) == Orphaned(r) + if from in r.seats then r.seats[from].paidIn else 0
  {
    hide *;
    assert BooksOk(r) && StageOk(r) by { RoomParts(r); }
    JoinedBooks(r, from);
    JoinedForms(r, from);
    RunningBacking(r);
    RunningBacking(Joined(r, from));
    RoomParts(Joined(r, from));
  }

  lemma RoomParts(r: Room)
    ensures RoomOk(r) <==> BooksOk(r) && StageOk(r)
  {
    hide BooksOk, StageOk;
  }

  lemma {:induction false} RemoveAllKeeps(addresses: seq<Address>, a: Address)
    ensures forall b :: b in RemoveAll(addresses, a) <==> b in addresses && b != a
  {
    if addresses != [] {
      RemoveAllKeeps(addresses[1..], a);
      assert addresses == [addresses[0]] + addresses[1..];
    }
  }

  lemma LeftSeats(r: Room, from: Address)
    requires BooksOk(r) && from in r.seats
    ensures var t := Left(r, from); from !in t.seats && forall a :: a in t.seats ==> SeatOk(t, a)
  {
    hide Sum, Orphaned;
    RemoveAllKeeps(r.participantAddresses, from);
    forall a | a in Left(r, from).seats
      ensures SeatOk(Left(r, from), a)
    {
      assert SeatOk(r, a);
    }
  }

  /** What is given back is the entry, the commission and the probes, each taken off its own line. */
  lemma LeftLedger(r: Room, from: Address)
    requires BooksOk(r) && from in r.seats
    ensures var t := Left(r, from);
            && t.ledger.creatorFeeAccrued == r.ledger.creatorFeeAccrued - Commission(r)
            && t.ledger.rewardPool + t.ledger.creatorFeeAccrued + t.ledger.entryFeesCollected
               == r.ledger.rewardPool + r.ledger.creatorFeeAccrued + r.ledger.entryFeesCollected - r.seats[from].paidIn
  {
    hide Sum, Orphaned;
    assert SeatOk(r, from);
  }

  lemma LeftBooks(r: Room, from: Address)
    requires BooksOk(r) && from in r.seats
    ensures var t := Left(r, from); BooksOk(t) && Orphaned(t) == Orphaned(r) && from !in t.seats
  {
    hide Sum, SeatOk;
    MulStep(r.config.entryPrice, r.participantCount);
    MulStep(Commission(r), r.participantCount);
    SeatRemovalSums(r.seats, from);
    LeftSeats(r, from);
    LeftLedger(r, from);
  }

  lemma LeftForms(r: Room, from: Address)
    requires StageOk(r) && r.status == Open && from in r.seats
    ensures var t := Left(r, from);
            StageOk(t) && t.status == Open && t.ending == r.ending == NotEnded
            && t.ledger.protocolFeeAccrued == r.ledger.protocolFeeAccrued && t.overpaid == r.overpaid
  {
  }

  lemma LeftBalances(r: Room, from: Address)
    requires RoomOk(r) && r.status == Open && from in r.seats
    ensures var t := Left(r, from);
            && RoomOk(t) && t.status == Open && Backing(t) == Backing(r) - r.seats[from].paidIn
            && Orphaned(t) == Orphaned(r) && from !in t.seats
  {
    LeftBooks(r, from);
    LeftLedger(r, from);
    LeftForms(r, from);
    RunningBacking(r);
    RunningBacking(Left(r, from));
    hide Sum, BooksOk, Orphaned, Left, SeatDues, Backing;
  }

  lemma BoughtBooks(r: Room, from: Address)
    requires BooksOk(r) && from in r.seats
    ensures var t := Bought(r, from); BooksOk(t) && Orphaned(t) == Orphaned(r)
  {
    hide Sum;
    var t := Bought(r, from);
    SeatUpdateSums(r.seats, from, t.seats[from]);
    forall a | a in t.seats
      ensures SeatOk(t, a)
    {
      assert SeatOk(r, a);
    }
    assert |t.seats| == |r.seats|;
  }

  /** A purchase leaves the attempts, and who is bound by one, alone. */
  lemma BoughtAttempts(r: Room, from: Address)
    requires AttemptsOk(r) && from in r.seats
    ensures AttemptsOk(Bought(r, from))
  {
    var t := Bought(r, from);
    forall i | 0 <= i < |t.attempts|
      ensures AttemptOk(t, t.attempts[i])
    {
      assert AttemptOk(r, r.attempts[i]);
    }
    assert forall a :: HasAttempt(r, a) ==> HasAttempt(t, a);
  }

  lemma BoughtStage(r: Room, from: Address)
    requires StageOk(r) && r.status in {Open, Ready, Active} && from in r.seats
    ensures var t := Bought(r, from);
            && StageOk(t) && t.status == r.status && t.ending == r.ending == NotEnded
            && InPlay(t) == InPlay(r) + r.config.probePrice
            && t.ledger.protocolFeeAccrued == r.ledger.protocolFeeAccrued && t.overpaid == r.overpaid
  {
    hide AttemptsOk;
    BoughtAttempts(r, from);
  }

  lemma BoughtBalances(r: Room, from: Address)
    requires RoomOk(r) && r.status in {Open, Ready, Active} && from in r.seats
    ensures var t := Bought(r, from);
            RoomOk(t) && t.status == r.status && Backing(t) == Backing(r) + r.config.probePrice && Orphaned(t) == Orphaned(r)
  {
    hide *;
    assert BooksOk(r) && StageOk(r) by { RoomParts(r); }
    BoughtBooks(r, from);
    BoughtStage(r, from);
    RunningBacking(r);
    RunningBacking(Bought(r, from));
    RoomParts(Bought(r, from));
  }

  // ------------------------------------------------------ while it is played

  /** Two seat tables that differ in nothing but play: the money on every seat is the same. */
  predicate SameMoney(xs: map<Address, Participant>, ys: map<Address, Participant>) {
    && xs.Keys == ys.Keys
    && forall a :: a in xs ==> xs[a].paidIn == ys[a].paidIn && xs[a].probesPaid == ys[a].probesPaid
                               && xs[a].refunded == ys[a].refunded
  }

  lemma SameMoneySums(xs: map<Address, Participant>, ys: map<Address, Participant>)
    requires SameMoney(xs, ys)
    ensures Sum(PaidIns(xs)) == Sum(PaidIns(ys)) && Sum(ProbeSpends(xs)) == Sum(ProbeSpends(ys)) && |xs| == |ys|
  {
    hide Sum;
    assert PaidIns(xs) == PaidIns(ys) && ProbeSpends(xs) == ProbeSpends(ys);
    assert |xs.Keys| == |ys.Keys|;
  }

  /** Books depend on nothing but the ledger, the terms and the money on the seats. */
  lemma BooksFrame(r: Room, t: Room)
    requires BooksOk(r) && SameMoney(r.seats, t.seats)
    requires t.ledger.(rewardPool := 0, rewardsClaimed := 0, creatorSettled := false)
             == r.ledger.(rewardPool := 0, rewardsClaimed := 0, creatorSettled := false)
    requires t.config == r.config && t.creator == r.creator && t.overpaid == r.overpaid
    requires t.participantCount == r.participantCount && t.participantAddresses == r.participantAddresses
    ensures BooksOk(t) && Orphaned(t) == Orphaned(r)
  {
    hide Sum;
    SameMoneySums(r.seats, t.seats);
    forall a | a in t.seats
      ensures SeatOk(t, a)
    {
      assert SeatOk(r, a);
    }
  }

  lemma ProbedAttempts(r: Room, from: Address, block: int, hash: Hash)
    requires AttemptsOk(r) && from in r.seats
    ensures AttemptsOk(Probed(r, from, block, hash))
  {
    var t := Probed(r, from, block, hash);
    forall i | 0 <= i < |t.attempts|
      ensures AttemptOk(t, t.attempts[i])
    {
      assert AttemptOk(r, r.attempts[i]);
    }
    assert forall a :: HasAttempt(r, a) ==> HasAttempt(t, a);
  }

  lemma ProbedStage(r: Room, from: Address, block: int, hash: Hash)
    requires StageOk(r) && r.status == Active && from in r.seats
    ensures var t := Probed(r, from, block, hash);
            && StageOk(t) && t.status == Active && t.ending == r.ending == NotEnded && t.ledger == r.ledger
            && t.overpaid == r.overpaid
            && InPlay(t) == InPlay(r)
  {
    hide AttemptsOk;
    ProbedAttempts(r, from, block, hash);
  }

  lemma ProbedBooks(r: Room, from: Address, block: int, hash: Hash)
    requires BooksOk(r) && from in r.seats
    ensures var t := Probed(r, from, block, hash);
            BooksOk(t) && Orphaned(t) == Orphaned(r) && t.ledger.protocolFeeAccrued == r.ledger.protocolFeeAccrued
  {
    hide BooksOk, Orphaned, Sum;
    BooksFrame(r, Probed(r, from, block, hash));
  }

  lemma ProbedBalances(r: Room, from: Address, block: int, hash: Hash)
    requires RoomOk(r) && r.status == Active && from in r.seats
    ensures var t := Probed(r, from, block, hash);
            RoomOk(t) && t.status == Active && Backing(t) == Backing(r) && Orphaned(t) == Orphaned(r)
  {
    hide *;
    assert BooksOk(r) && StageOk(r) by { RoomParts(r); }
    ProbedBooks(r, from, block, hash);
    ProbedStage(r, from, block, hash);
    RunningBacking(r);
    RunningBacking(Probed(r, from, block, hash));
    RoomParts(Probed(r, from, block, hash));
  }

  lemma DefendedStage(r: Room, from: Address, point: DefensePoint, block: int, hash: Hash)
    requires StageOk(r) && r.status == Active && from in r.seats && r.seats[from].defenseAttemptIds == []
    requires r.attack.value.status == AttackLaunched
    ensures var t := Defended(r, from, point, block, hash);
            && StageOk(t) && t.status == Active && t.ending == r.ending == NotEnded && t.ledger == r.ledger
            && t.overpaid == r.overpaid
            && InPlay(t) == InPlay(r)
  {
    hide AttemptsOk;
    DefendedAttempts(r, from, point, block, hash);
  }

  lemma DefendedBooks(r: Room, from: Address, point: DefensePoint, block: int, hash: Hash)
    requires BooksOk(r) && from in r.seats
    ensures var t := Defended(r, from, point, block, hash);
            BooksOk(t) && Orphaned(t) == Orphaned(r) && t.ledger.protocolFeeAccrued == r.ledger.protocolFeeAccrued
  {
    hide BooksOk, Orphaned, Sum;
    BooksFrame(r, Defended(r, from, point, block, hash));
  }

  lemma DefendedBalances(r: Room, from: Address, point: DefensePoint, block: int, hash: Hash)
    requires RoomOk(r) && r.status == Active && from in r.seats && r.seats[from].defenseAttemptIds == []
    requires r.attack.value.status == AttackLaunched
    ensures var t := Defended(r, from, point, block, hash);
            RoomOk(t) && t.status == Active && Backing(t) == Backing(r) && Orphaned(t) == Orphaned(r)
  {
    hide *;
    assert BooksOk(r) && StageOk(r) by { RoomParts(r); }
    DefendedBooks(r, from, point, block, hash);
    DefendedStage(r, from, point, block, hash);
    RunningBacking(r);
    RunningBacking(Defended(r, from, point, block, hash));
    RoomParts(Defended(r, from, point, block, hash));
  }

  lemma DefendedAttempts(r: Room, from: Address, point: DefensePoint, block: int, hash: Hash)
    requires AttemptsOk(r) && from in r.seats && r.seats[from].defenseAttemptIds == []
    ensures AttemptsOk(Defended(r, from, point, block, hash))
  {
    var t := Defended(r, from, point, block, hash);
    forall i | 0 <= i < |t.attempts|
      ensures AttemptOk(t, t.attempts[i]) && (i < |r.attempts| ==> t.attempts[i].participant != from)
    {
      if i < |r.attempts| { assert AttemptOk(r, r.attempts[i]); }
    }
  }

  lemma LaunchedBalances(r: Room)
    requires RoomOk(r) && r.status == Active
    ensures var t := r.(attack := Some(r.attack.value.(status := AttackLaunched)));
            RoomOk(t) && Backing(t) == Backing(r) && Orphaned(t) == Orphaned(r)
  {
    hide Sum;
    var t := r.(attack := Some(r.attack.value.(status := AttackLaunched)));
    BooksFrame(r, t);
    assert forall i :: 0 <= i < |t.attempts| ==> AttemptOk(r, r.attempts[i]) && AttemptOk(t, t.attempts[i]);
  }

  lemma RevealedBalances(r: Room, revealed: LobbyReveal)
    requires RoomOk(r) && r.status in {Resolved, Cancelled}
    ensures var t := r.(revealed := Some(revealed));
            RoomOk(t) && t.status == r.status && Backing(t) == Backing(r) && Orphaned(t) == Orphaned(r)
  {
    hide Sum, BooksOk, AttemptsOk, Orphaned;
    var t := r.(revealed := Some(revealed));
    BooksFrame(r, t);
    RevealedAttempts(r, revealed);
    assert SeatDues(t) == SeatDues(r);
  }

  lemma RevealedAttempts(r: Room, revealed: LobbyReveal)
    requires AttemptsOk(r)
    ensures AttemptsOk(r.(revealed := Some(revealed)))
  {
    var t := r.(revealed := Some(revealed));
    assert forall i :: 0 <= i < |t.attempts| ==> AttemptOk(r, r.attempts[i]) && AttemptOk(t, t.attempts[i]);
  }

  // ------------------------------------------------------------ the endings

  lemma ReadyBalances(r: Room)
    requires RoomOk(r) && r.status == Open
    ensures var t := r.(status := Ready); RoomOk(t) && Backing(t) == Backing(r) && Orphaned(t) == Orphaned(r)
  {
    hide Sum;
    BooksFrame(r, r.(status := Ready));
  }

  /** A room that never ran: what was held for play is what is owed back, plus what was orphaned. */
  lemma UnfilledBalances(r: Room)
    requires RoomOk(r) && r.status == Open
    ensures var t := r.(status := Cancelled, ending := Unplayed);
            RoomOk(t) && Backing(t) == Backing(r) && Orphaned(t) == Orphaned(r)
  {
    hide Sum;
    var t := r.(status := Cancelled, ending := Unplayed);
    BooksFrame(r, t);
    assert SeatDues(t) == PaidIns(r.seats);
  }

  lemma ActivatedBalances(p: Protocol, r: Room, id: Hash, block: int, pooled: int)
    requires p.Valid() && RoomOk(r) && r.status == Ready && pooled >= 0
    ensures var t := ActivatedRoom(p, r, id, block, pooled);
            RoomOk(t) && t.status == Active && Backing(t) == Backing(r) + pooled && Orphaned(t) == Orphaned(r)
  {
    hide Sum;
    var t := ActivatedRoom(p, r, id, block, pooled);
    forall a | a in t.seats
      ensures SeatOk(t, a)
    {
      assert SeatOk(r, a);
    }
  }

  lemma RefundedBalances(r: Room, a: Address)
    requires RoomOk(r) && r.status == Cancelled && a in r.seats && !r.seats[a].refunded
    ensures var t := Refunded(r, a);
            RoomOk(t) && t.status == Cancelled && Backing(t) == Backing(r) - r.seats[a].paidIn
            && Orphaned(t) == Orphaned(r) && CreatorDue(t) == CreatorDue(r)
  {
    hide Sum, BooksOk, AttemptsOk, Orphaned, SeatDues, SeatDue;
    var t := Refunded(r, a);
    RefundedBooks(r, a);
    RefundedAttempts(r, a);
    SeatDueUpdate(r, a, t.seats[a]);
    RefundIsTheDue(r, a);
  }

  lemma RefundIsTheDue(r: Room, a: Address)
    requires StageOk(r) && r.status == Cancelled && a in r.seats && !r.seats[a].refunded
    ensures SeatDue(r, r.seats[a]) == r.seats[a].paidIn && SeatDue(r, r.seats[a].(refunded := true)) == 0
  {
    hide AttemptsOk;
  }

  lemma RefundedBooks(r: Room, a: Address)
    requires BooksOk(r) && a in r.seats
    ensures BooksOk(Refunded(r, a)) && Orphaned(Refunded(r, a)) == Orphaned(r)
  {
    hide Sum;
    var t := Refunded(r, a);
    SeatUpdateSums(r.seats, a, t.seats[a]);
    forall b | b in t.seats
      ensures SeatOk(t, b)
    {
      assert SeatOk(r, b);
    }
    assert |t.seats| == |r.seats|;
  }

  lemma RefundedAttempts(r: Room, a: Address)
    requires AttemptsOk(r) && a in r.seats
    ensures AttemptsOk(Refunded(r, a))
  {
    var t := Refunded(r, a);
    assert forall i :: 0 <= i < |t.attempts| ==> AttemptOk(r, r.attempts[i]) && AttemptOk(t, t.attempts[i]);
    assert forall b :: HasAttempt(r, b) ==> HasAttempt(t, b);
  }

  lemma SettledBalances(r: Room)
    requires RoomOk(r) && r.ending != NotEnded
    ensures var t := Settled(r);
            RoomOk(t) && t.status == r.status && Backing(t) == Backing(r) - CreatorDue(r) && Orphaned(t) == Orphaned(r)
  {
    hide Sum, BooksOk, AttemptsOk, Orphaned, CompletedCreatorDue;
    var t := Settled(r);
    BooksFrame(r, t);
    SettledAttempts(r);
    assert SeatDues(t) == SeatDues(r);
  }

  lemma SettledAttempts(r: Room)
    requires AttemptsOk(r)
    ensures AttemptsOk(Settled(r))
  {
    var t := Settled(r);
    assert forall i :: 0 <= i < |t.attempts| ==> AttemptOk(r, r.attempts[i]) && AttemptOk(t, t.attempts[i]);
    assert forall b :: HasAttempt(r, b) ==> HasAttempt(t, b);
  }

  lemma ClaimedBalances(r: Room, from: Address)
    requires RoomOk(r) && r.status == Resolved && Won(r) && from in r.outcome.value.Winners()
    requires from in r.seats && r.seats[from].payoutState != Paid
    ensures var t := Claimed(r, from);
            RoomOk(t) && t.status == Resolved && Backing(t) == Backing(r) - r.outcome.value.rewardPerWinner
            && Orphaned(t) == Orphaned(r) && CreatorDue(t) == CreatorDue(r)
  {
    hide Sum, AttemptsOk, SeatDues, Orphaned, BooksOk;
    BooksFrame(r, Claimed(r, from));
    ClaimedDues(r, from);
    ClaimedAttempts(r, from);
  }

  lemma ClaimedAttempts(r: Room, from: Address)
    requires AttemptsOk(r) && from in r.seats && r.outcome.Some?
    ensures AttemptsOk(Claimed(r, from))
  {
    var t := Claimed(r, from);
    assert forall i :: 0 <= i < |t.attempts| ==> AttemptOk(r, r.attempts[i]) && AttemptOk(t, t.attempts[i]);
  }

  lemma ClaimedDues(r: Room, from: Address)
    requires Won(r) && from in r.seats && r.seats[from].payoutState == PayoutPending && !Refunding(r)
    ensures var t := Claimed(r, from);
            Sum(SeatDues(t)) == Sum(SeatDues(r)) - r.outcome.value.rewardPerWinner && CreatorDue(t) == CreatorDue(r)
  {
    hide Sum;
    var t := Claimed(r, from);
    SeatDueUpdate(r, from, t.seats[from]);
    assert SeatDues(t) == SeatDues(r.(seats := t.seats));
  }

  // -------------------------------------------------------------- the verdict

  ghost predicate DistinctParticipants(attempts: seq<Attempt>) {
    forall i, j :: 0 <= i < j < |attempts| ==> attempts[i].participant != attempts[j].participant
  }

  ghost predicate Distinct(xs: seq<Address>) {
    forall i, j :: 0 <= i < j < |xs| ==> xs[i] != xs[j]
  }

  lemma {:induction false} WinnersAreDistinct(attempts: seq<Attempt>, s: Scene, block: int)
    requires DistinctParticipants(attempts)
    ensures Distinct(ParticipantsAt(Hits(attempts, s), block))
    ensures forall w :: w in ParticipantsAt(Hits(attempts, s), block) ==> exists a :: a in attempts && a.participant == w
  {
    if attempts != [] {
      var n := |attempts| - 1;
      var rest := attempts[..n];
      WinnersAreDistinct(rest, s, block);
      var hits := Hits(rest, s);
      if IsHit(attempts[n], s) {
        assert (hits + [attempts[n]])[..|hits + [attempts[n]]| - 1] == hits;
        assert attempts[n].participant !in ParticipantsAt(hits, block);
      }
    }
  }

  lemma OpenedAreSeated(r: Room)
    requires AttemptsOk(r)
    ensures DistinctParticipants(OpenedAttempts(r))
    ensures forall a :: a in OpenedAttempts(r) ==>
              a.participant in r.seats && r.seats[a.participant].defenseAttemptIds != []
              && r.seats[a.participant].actionCount > 0
  {
    var attempts := OpenedAttempts(r);
    forall a | a in attempts
      ensures a.participant in r.seats && r.seats[a.participant].defenseAttemptIds != []
              && r.seats[a.participant].actionCount > 0
    {
      var i :| 0 <= i < |attempts| && attempts[i] == a;
      assert AttemptOk(r, r.attempts[i]);
    }
  }

  lemma ResolutionIsDistinct(attempts: seq<Attempt>, s: Scene)
    requires DistinctParticipants(attempts)
    ensures Distinct(Winners(ResolveAttack(attempts, s)))
    ensures forall w :: w in Winners(ResolveAttack(attempts, s)) ==> exists a :: a in attempts && a.participant == w
  {
    var hits := Hits(attempts, s);
    if hits != [] {
      WinnersAreDistinct(attempts, s, EarliestBlock(hits));
    }
  }

  /** An active room's verdict names distinct seated defenders who acted, and stops the attack iff it names one. */
  lemma VerdictNamesDefenders(p: Protocol, r: Room)
    requires AttemptsOk(r) && Judgeable(r)
    ensures var v := VerdictOf(p, r);
            && Distinct(Winners(v)) && (v.Stopped? <==> Winners(v) != [])
            && (forall w :: w in Winners(v) ==> w in r.seats && r.seats[w].defenseAttemptIds != [] && r.seats[w].actionCount > 0)
            && (v.Stopped? ==> WasActedIn(r))
  {
    hide AttemptsOk, ResolveAttack, OpenedAttempts, SceneOf;
    var attempts := OpenedAttempts(r);
    OpenedAreSeated(r);
    WinnersAreEarliestHits(attempts, SceneOf(p, r));
    ResolutionIsDistinct(attempts, SceneOf(p, r));
    var ws := Winners(VerdictOf(p, r));
    if ws != [] {
      assert ws[0] in ws;
    }
  }

  /** Equal floor shares never exceed the pool; what they leave is less than one wei per winner. */
  lemma SharesFit(pool: int, n: nat)
    requires pool >= 0 && n > 0
    ensures 0 <= (pool / n) * n <= pool < (pool / n) * n + n
  {
  }

  lemma SetOfDistinct(xs: seq<Address>) returns (on: set<Address>)
    requires Distinct(xs)
    ensures |on| == |xs| && forall a :: a in on <==> a in xs
  {
    on := {};
    for i := 0 to |xs|
      invariant |on| == i && forall a :: a in on <==> a in xs[..i]
    {
      on := on + {xs[i]};
    }
    assert xs[..|xs|] == xs;
  }

  /** The winners' entitlements add up to the share times their number. */
  lemma WinnersDues(r: Room)
    requires Won(r) && !Refunding(r) && Distinct(r.outcome.value.Winners())
    requires forall w :: w in r.outcome.value.Winners() ==> w in r.seats
    requires forall a :: a in r.seats ==> r.seats[a].payoutState == if a in r.outcome.value.Winners() then PayoutPending else NoPayout
    ensures Sum(SeatDues(r)) == r.outcome.value.rewardPerWinner * |r.outcome.value.Winners()|
  {
    hide Sum;
    var on := SetOfDistinct(r.outcome.value.Winners());
    SumIndicator(SeatDues(r), on, r.outcome.value.rewardPerWinner);
  }

  lemma ConcludedBooks(p: Protocol, r: Room, block: int)
    requires RoomOk(r) && Judgeable(r)
    ensures var t := ConcludedRoom(p, r, block); BooksOk(t) && Orphaned(t) == Orphaned(r)
  {
    hide Sum, StageOk, VerdictOf, BooksOk, Orphaned, WasActedIn, Forfeited;
    BooksFrame(r, ConcludedRoom(p, r, block));
  }

  lemma ConcludedAttempts(p: Protocol, r: Room, block: int)
    requires RoomOk(r) && Judgeable(r)
    ensures AttemptsOk(ConcludedRoom(p, r, block))
  {
    hide Sum, BooksOk, VerdictOf;
    var t := ConcludedRoom(p, r, block);
    assert forall i :: 0 <= i < |t.attempts| ==> AttemptOk(r, r.attempts[i]) && AttemptOk(t, t.attempts[i]);
  }

  lemma ConcludedUnplayed(p: Protocol, r: Room, block: int)
    requires RoomOk(r) && r.status == Active && Judgeable(r) && !WasActedIn(r)
    ensures var t := ConcludedRoom(p, r, block);
            RoomOk(t) && t.status == Cancelled && Backing(t) == Backing(r) && Forfeited(p, r) == 0
  {
    hide Sum, AttemptsOk, VerdictOf, BooksOk, SeatDues, Orphaned;
    ConcludedBooks(p, r, block);
    ConcludedAttempts(p, r, block);
    ConcludedUnplayedSeats(p, r, block);
    UnplayedHeld(r);
  }

  /** Nobody acted, so nobody defended: no winner, no money moved, and every seat is due what it paid. */
  lemma ConcludedUnplayedSeats(p: Protocol, r: Room, block: int)
    requires RoomOk(r) && r.status == Active && Judgeable(r) && !WasActedIn(r)
    ensures var t := ConcludedRoom(p, r, block);
            && t.status == Cancelled && t.ending == Unplayed && Finished(t) && !t.outcome.value.Intercepted()
            && t.seats == r.seats && t.ledger == r.ledger && t.overpaid == r.overpaid && Forfeited(p, r) == 0
            && SeatDues(t) == PaidIns(r.seats)
  {
    hide Sum, AttemptsOk, VerdictOf, BooksOk, Orphaned;
    var t := ConcludedRoom(p, r, block);
    VerdictNamesDefenders(p, r);
    assert t.seats == r.seats;
    assert SeatDues(t) == PaidIns(r.seats);
  }

  /** What a running room holds beside the bounty is what its seats paid and what repeated joins orphaned. */
  lemma UnplayedHeld(r: Room)
    requires RoomOk(r) && r.status == Active
    ensures InPlay(r) == r.ledger.startPrizePool + Sum(PaidIns(r.seats)) + Orphaned(r)
  {
    hide Sum, AttemptsOk, BooksOk;
  }

  lemma ConcludedKeeps(p: Protocol, r: Room, block: int)
    requires Judgeable(r)
    ensures var t := ConcludedRoom(p, r, block);
            t.overpaid == r.overpaid && t.ledger == r.ledger.(rewardPool := t.ledger.rewardPool)
  {
    hide VerdictOf;
  }

  lemma ConcludedWonSeats(p: Protocol, r: Room, block: int)
    requires RoomOk(r) && r.status == Active && Judgeable(r) && VerdictOf(p, r).Stopped?
    ensures var t := ConcludedRoom(p, r, block);
            && t.status == Resolved && t.outcome.Some? && Won(t) && !Refunding(t) && t.ending != NotEnded
            && PayoutsOk(t) && Forfeited(p, r) == 0
            && t.ledger == r.ledger && Finished(t) && Distinct(t.outcome.value.Winners())
            && (forall a :: a in t.seats ==> !t.seats[a].refunded)
            && (forall a :: a in t.seats ==>
                  t.seats[a].payoutState == if a in t.outcome.value.Winners() then PayoutPending else NoPayout)
            && t.outcome.value.rewardPerWinner == r.ledger.rewardPool / |t.outcome.value.Winners()|
  {
    hide Sum, AttemptsOk, VerdictOf, BooksOk;
    VerdictNamesDefenders(p, r);
  }

  lemma ConcludedWon(p: Protocol, r: Room, block: int)
    requires RoomOk(r) && r.status == Active && Judgeable(r) && VerdictOf(p, r).Stopped?
    ensures var t := ConcludedRoom(p, r, block);
            RoomOk(t) && t.status == Resolved && Won(t) && Backing(t) == Backing(r) && Forfeited(p, r) == 0
            && t.outcome.value.rewardPerWinner * |t.outcome.value.Winners()| <= t.ledger.rewardPool == r.ledger.rewardPool
  {
    hide *;
    var t := ConcludedRoom(p, r, block);
    ConcludedBooks(p, r, block);
    ConcludedAttempts(p, r, block);
    ConcludedWonSeats(p, r, block);
    ConcludedKeeps(p, r, block);
    WonStage(r, t);
    SharesFit(r.ledger.rewardPool, |t.outcome.value.Winners()|);
    WonDues(t);
    WonBacking(r, t);
  }

  lemma WonStage(r: Room, t: Room)
    requires RoomOk(r) && r.status == Active && BooksOk(t) && AttemptsOk(t)
    requires t.status == Resolved && Won(t) && PayoutsOk(t) && t.ledger == r.ledger && Finished(t)
    requires forall a :: a in t.seats ==> !t.seats[a].refunded
    ensures RoomOk(t) && r.ledger.rewardPool >= 0 && t.outcome.value.Winners() != []
    ensures r.ending == NotEnded && !r.ledger.creatorSettled
  {
    hide Sum, AttemptsOk;
    FeesNonNegative(r);
  }

  lemma WonDues(t: Room)
    requires Won(t) && !Refunding(t) && Distinct(t.outcome.value.Winners()) && PayoutsOk(t)
    requires forall a :: a in t.seats ==>
               t.seats[a].payoutState == if a in t.outcome.value.Winners() then PayoutPending else NoPayout
    ensures Sum(SeatDues(t)) == t.outcome.value.rewardPerWinner * |t.outcome.value.Winners()|
  {
    hide Sum;
    WinnersDues(t);
  }

  lemma WonBacking(r: Room, t: Room)
    requires r.status == Active && r.ending == NotEnded && !r.ledger.creatorSettled
    requires t.ledger == r.ledger && t.overpaid == r.overpaid && Won(t) && !Refunding(t) && t.ending != NotEnded
    requires Sum(SeatDues(t)) == t.outcome.value.rewardPerWinner * |t.outcome.value.Winners()| <= r.ledger.rewardPool
    ensures Backing(t) == Backing(r)
  {
    hide Sum, SeatDues, Orphaned;
  }

  lemma NobodyIsDue(t: Room)
    requires !Won(t) && !Refunding(t)
    ensures Sum(SeatDues(t)) == 0
  {
    hide Sum;
    SumZero(SeatDues(t));
  }

  lemma ConcludedMissedSeats(p: Protocol, r: Room, block: int)
    requires RoomOk(r) && r.status == Active && Judgeable(r) && VerdictOf(p, r).NotStopped? && WasActedIn(r)
    ensures var t := ConcludedRoom(p, r, block);
            && t.status == Resolved && t.ending == Completed && !Won(t) && Finished(t) && t.seats == r.seats
            && t.ledger == r.ledger.(rewardPool := 0) && Forfeited(p, r) == r.ledger.rewardPool >= 0
            && Sum(SeatDues(t)) == 0
  {
    hide Sum, AttemptsOk, VerdictOf, Orphaned, SeatOk;
    var t := ConcludedRoom(p, r, block);
    FeesNonNegative(r);
    assert t.seats == r.seats;
    NobodyIsDue(t);
  }

  lemma ConcludedMissed(p: Protocol, r: Room, block: int)
    requires RoomOk(r) && r.status == Active && Judgeable(r) && VerdictOf(p, r).NotStopped? && WasActedIn(r)
    ensures var t := ConcludedRoom(p, r, block);
            RoomOk(t) && t.status == Resolved && Forfeited(p, r) == r.ledger.rewardPool >= 0
            && Backing(t) == Backing(r) - r.ledger.rewardPool
  {
    hide Sum, AttemptsOk, VerdictOf, BooksOk, SeatDues, Orphaned;
    ConcludedBooks(p, r, block);
    ConcludedAttempts(p, r, block);
    ConcludedMissedSeats(p, r, block);
  }

  /** Whatever the verdict, the room stays sound and its backing falls by exactly what it forfeits. */
  lemma ConcludedBalances(p: Protocol, r: Room, block: int)
    requires RoomOk(r) && r.status == Active && Judgeable(r)
    ensures var t := ConcludedRoom(p, r, block);
            RoomOk(t) && t.status in {Resolved, Cancelled} && Backing(t) == Backing(r) - Forfeited(p, r)
            && Orphaned(t) == Orphaned(r) && Forfeited(p, r) >= 0
  {
    hide *;
    ConcludedBooks(p, r, block);
    if VerdictOf(p, r).Stopped? {
      ConcludedWon(p, r, block);
    } else if WasActedIn(r) {
      ConcludedMissed(p, r, block);
    } else {
      ConcludedUnplayed(p, r, block);
    }
  }

  // ------------------------------------------------------------------- minting

  lemma NoSums()
    ensures Sum(PaidIns(map[])) == 0 && Sum(ProbeSpends(map[])) == 0
  {
  }

  lemma MintedBalances(p: Protocol, from: Address, config: LobbyConfig, value: int, nowMs: int)
    requires p.Valid() && from != PROTOCOL_ESCROW_ADDRESS && IsLegalConfig(config, nowMs, p.limits)
    requires value >= config.prizePool + config.protocolJoinFee
    ensures var t := MintedRoom(p, from, config, value);
            RoomOk(t) && t.status == Open && Backing(t) == value && Orphaned(t) == 0
  {
    NoSums();
    ProductNonNegative(config.entryPrice, config.creatorFeePercent);
  }

  lemma DrawBalances(p: Protocol, schedule: Schedule, block: int, nowMs: int)
    requires p.Valid()
    ensures var t := DrawRoom(p, schedule, block, nowMs);
            RoomOk(t) && t.status == Open && Backing(t) == 0 && Orphaned(t) == 0
  {
    NoSums();
  }
}
