/** A wallet's record, folded out of the event log into bounded state - and what that record means for the whole log. */
module PlayerLedger {
  import opened Options
  import opened EventLog

  const RECENT_ROUNDS := 12

  datatype Record = Record(
    address: string, operationsCreated: nat, operationsJoined: nat, operationsLeft: nat,
    roundsPlayed: nat, interceptions: nat, currentStreak: nat, bestStreak: nat,
    probesBought: nat, probesSent: nat, defensesSubmitted: nat,
    stakedWei: nat, wonWei: nat, creatorFeesWei: nat, returnedWei: nat,
    recentRounds: seq<bool>, firstBlock: Option<int>, lastBlock: Option<int>)

  function Blank(address: string): Record {
    Record(address, 0, 0, 0, 0, 0, 0, 0, 0, 0, 0, 0, 0, 0, 0, [], None, None)
  }

  // ------------------------------------------------- what the log says outright

  type Log = seq<IndexedEvent>

  /** The last thing that happened to this wallet's seat, or to the lobby, was that the wallet sat down. */
  ghost predicate Seated(log: Log, lobby: string, a: string)
    decreases |log|
  {
    log != [] &&
    var e := log[|log| - 1];
    if e.PlayerJoined? && e.lobbyId == lobby && lobby != "" && Key(e.player) == Some(a) then true
    else if e.PlayerLeft? && e.lobbyId == lobby && lobby != "" && Key(e.player) == Some(a) then false
    else if (e.LobbyCancelled? || e.WinnerDetermined?) && e.lobbyId == lobby && lobby != "" then false
    else Seated(log[..|log| - 1], lobby, a)
  }

  predicate SitsDown(e: IndexedEvent, lobby: string, a: string) {
    e.PlayerJoined? && e.lobbyId == lobby && lobby != "" && Key(e.player) == Some(a)
  }

  predicate GetsUp(e: IndexedEvent, lobby: string, a: string) {
    e.lobbyId == lobby && lobby != ""
    && (e.LobbyCancelled? || e.WinnerDetermined? || (e.PlayerLeft? && Key(e.player) == Some(a)))
  }

  /** Seated means: at some point it sat down, and nothing since then got it up. */
  lemma {:induction false} SeatedMeans(log: Log, lobby: string, a: string)
    ensures Seated(log, lobby, a)
            <==> exists i :: 0 <= i < |log| && SitsDown(log[i], lobby, a) && forall j :: i < j < |log| ==> !GetsUp(log[j], lobby, a)
    decreases |log|
  {
    hide Key;
    if log != [] {
      var n := |log| - 1;
      SeatedMeans(log[..n], lobby, a);
      if SitsDown(log[n], lobby, a) {
      } else if !GetsUp(log[n], lobby, a) && Seated(log[..n], lobby, a) {
        var i :| 0 <= i < n && SitsDown(log[..n][i], lobby, a) && forall j :: i < j < n ==> !GetsUp(log[..n][j], lobby, a);
        assert SitsDown(log[i], lobby, a) && forall j :: i < j < |log| ==> !GetsUp(log[j], lobby, a) by {
          assert forall j :: i < j < n ==> log[..n][j] == log[j];
        }
      } else if !GetsUp(log[n], lobby, a) {
        forall i | 0 <= i < n && SitsDown(log[i], lobby, a)
          ensures exists j :: i < j < |log| && GetsUp(log[j], lobby, a)
        {
          assert log[..n][i] == log[i];
          var j :| i < j < n && GetsUp(log[..n][j], lobby, a);
          assert log[..n][j] == log[j];
        }
      }
    }
  }

  /** Of the lobby's endings, the last was a cancellation. */
  ghost predicate Cancelled(log: Log, lobby: string)
    decreases |log|
  {
    log != [] &&
    var e := log[|log| - 1];
    if e.LobbyCancelled? && e.lobbyId == lobby && lobby != "" then true
    else if e.WinnerDetermined? && e.lobbyId == lobby && lobby != "" then false
    else Cancelled(log[..|log| - 1], lobby)
  }

  /** A verdict on a round that was played, and this wallet was in it. */
  ghost predicate Scores(before: Log, e: IndexedEvent, a: string) {
    e.WinnerDetermined? && e.lobbyId != "" && !Cancelled(before, e.lobbyId) && Seated(before, e.lobbyId, a)
  }

  predicate IsWinner(e: IndexedEvent, a: string)
    requires e.WinnerDetermined?
  {
    exists w :: w in e.winners && Key(w) == Some(a)
  }

  /** A wallet's whole history: every played round it was seated in, oldest first, and whether it won. Unbounded. */
  ghost function History(log: Log, a: string): seq<bool>
    decreases |log|
  {
    if log == [] then []
    else
      var before, e := log[..|log| - 1], log[|log| - 1];
      if Scores(before, e, a) then History(before, a) + [IsWinner(e, a)] else History(before, a)
  }

  // ---------------------------------------------------------------- histories

  function CountTrue(h: seq<bool>): nat {
    if h == [] then 0 else CountTrue(h[..|h| - 1]) + if h[|h| - 1] then 1 else 0
  }

  function TrailingRun(h: seq<bool>): nat {
    if h == [] || !h[|h| - 1] then 0 else TrailingRun(h[..|h| - 1]) + 1
  }

  function LongestRun(h: seq<bool>): nat {
    if h == [] then 0
    else
      var before := LongestRun(h[..|h| - 1]);
      if TrailingRun(h) > before then TrailingRun(h) else before
  }

  function LastOf(h: seq<bool>, n: nat): seq<bool> { if |h| <= n then h else h[|h| - n..] }

  ghost predicate IsRun(h: seq<bool>, i: nat, j: nat) { i <= j <= |h| && forall k :: i <= k < j ==> h[k] }

  /** The trailing run reaches the end and cannot be extended backwards. */
  lemma {:induction false} TrailingRunIsMaximal(h: seq<bool>)
    ensures var n := TrailingRun(h);
            n <= |h| && IsRun(h, |h| - n, |h|) && (n < |h| ==> !h[|h| - n - 1])
            && forall i: nat :: IsRun(h, i, |h|) ==> |h| - i <= n
  {
    if h != [] && h[|h| - 1] {
      TrailingRunIsMaximal(h[..|h| - 1]);
      var before := h[..|h| - 1];
      assert forall k :: 0 <= k < |before| ==> before[k] == h[k];
    }
    assert forall i: nat :: IsRun(h, i, |h|) && i < |h| - TrailingRun(h) ==> h[|h| - TrailingRun(h) - 1];
  }

  /** The longest run is a run, and no run is longer. */
  lemma {:induction false} LongestRunIsLongest(h: seq<bool>)
    ensures exists i: nat, j: nat :: IsRun(h, i, j) && j - i == LongestRun(h)
    ensures forall i: nat, j: nat :: IsRun(h, i, j) ==> j - i <= LongestRun(h)
  {
    if h == [] {
      assert IsRun(h, 0, 0);
    } else {
      var before := h[..|h| - 1];
      LongestRunIsLongest(before);
      TrailingRunIsMaximal(h);
      var i: nat, j: nat :| IsRun(before, i, j) && j - i == LongestRun(before);
      assert IsRun(h, i, j);
      assert IsRun(h, |h| - TrailingRun(h), |h|);
      forall i: nat, j: nat | IsRun(h, i, j)
        ensures j - i <= LongestRun(h)
      {
        if j < |h| { assert IsRun(before, i, j); }
      }
    }
  }

  ghost function WonAt(h: seq<bool>): set<nat> { set i: nat | i < |h| && h[i] }

  /** The count is the number of rounds that were won. */
  lemma {:induction false} CountTrueCounts(h: seq<bool>)
    ensures CountTrue(h) == |WonAt(h)|
  {
    if h != [] {
      var n := |h| - 1;
      CountTrueCounts(h[..n]);
      assert WonAt(h) == if h[n] then WonAt(h[..n]) + {n} else WonAt(h[..n]);
      assert n !in WonAt(h[..n]);
    }
  }

  // ------------------------------------------------------------------ counters

  datatype Counter = Created | TookSeat | GaveSeat | Bought | Sent | Submitted | Staked | Won | Fees | Returned

  /** What one event adds to one counter of one wallet. */
  function Weight(c: Counter, e: IndexedEvent, a: string): nat {
    match c
    case Created => if e.LobbyCreated? && Key(e.creator) == Some(a) then 1 else 0
    case TookSeat => if e.PlayerJoined? && e.lobbyId != "" && Key(e.player) == Some(a) then 1 else 0
    case GaveSeat => if e.PlayerLeft? && e.lobbyId != "" && Key(e.player) == Some(a) then 1 else 0
    case Bought => if e.ProbesPurchased? && Key(e.player) == Some(a) then e.count else 0
    case Sent => if e.ProbeSent? && Key(e.player) == Some(a) then 1 else 0
    case Submitted => if e.DefenseSubmitted? && Key(e.player) == Some(a) then 1 else 0
    case Staked => if (e.PlayerJoined? && e.lobbyId != "" && Key(e.player) == Some(a)) || (e.ProbesPurchased? && Key(e.player) == Some(a))
                   then e.paid else 0
    case Won => if e.RewardClaimed? && Key(e.player) == Some(a) then e.amount else 0
    case Fees => if e.CreatorSettled? && Key(e.creator) == Some(a) then e.amount else 0
    case Returned => if e.PlayerLeft? && e.lobbyId != "" && Key(e.player) == Some(a) then e.refunded
                     else if e.RefundClaimed? && Key(e.player) == Some(a) then e.amount else 0
  }

  ghost function Total(log: Log, c: Counter, a: string): nat
    decreases |log|
  {
    if log == [] then 0 else Total(log[..|log| - 1], c, a) + Weight(c, log[|log| - 1], a)
  }

  /** Events that are about the wallet they name. */
  predicate Names(e: IndexedEvent, a: string) {
    match e
    case LobbyCreated(_, _, creator, _, _, _, _) => Key(creator) == Some(a)
    case PlayerJoined(_, lobby, player, _, _) => lobby != "" && Key(player) == Some(a)
    case PlayerLeft(_, lobby, player, _, _) => lobby != "" && Key(player) == Some(a)
    case ProbesPurchased(_, _, player, _, _) => Key(player) == Some(a)
    case ProbeSent(_, _, player) => Key(player) == Some(a)
    case DefenseSubmitted(_, _, player) => Key(player) == Some(a)
    case RewardClaimed(_, _, player, _) => Key(player) == Some(a)
    case RefundClaimed(_, _, player, _) => Key(player) == Some(a)
    case CreatorSettled(_, _, creator, _) => Key(creator) == Some(a)
    case _ => false
  }

  ghost predicate Touches(before: Log, e: IndexedEvent, a: string) { Names(e, a) || Scores(before, e, a) }

  ghost function FirstBlock(log: Log, a: string): Option<int>
    decreases |log|
  {
    if log == [] then None
    else
      var before, e := log[..|log| - 1], log[|log| - 1];
      if FirstBlock(before, a).Some? then FirstBlock(before, a)
      else if Touches(before, e, a) then Some(e.blockNumber) else None
  }

  ghost function LastBlock(log: Log, a: string): Option<int>
    decreases |log|
  {
    if log == [] then None
    else
      var before, e := log[..|log| - 1], log[|log| - 1];
      if Touches(before, e, a) then Some(e.blockNumber) else LastBlock(before, a)
  }

  /** The record the whole log defines. */
  ghost function RecordOf(log: Log, a: string): Record {
    var h := History(log, a);
    Record(a, Total(log, Created, a), Total(log, TookSeat, a), Total(log, GaveSeat, a),
           |h|, CountTrue(h), TrailingRun(h), LongestRun(h),
           Total(log, Bought, a), Total(log, Sent, a), Total(log, Submitted, a),
           Total(log, Staked, a), Total(log, Won, a), Total(log, Fees, a), Total(log, Returned, a),
           LastOf(h, RECENT_ROUNDS), FirstBlock(log, a), LastBlock(log, a))
  }

  // --------------------------------------------------------- one event at a time

  /** The bounded half of a score: only the last rounds, the running counts and the two streaks are kept. */
  function Scored(r: Record, won: bool): Record {
    var recent := r.recentRounds + [won];
    var streak := if won then r.currentStreak + 1 else 0;
    r.(roundsPlayed := r.roundsPlayed + 1,
       recentRounds := if |recent| > RECENT_ROUNDS then recent[1..] else recent,
       interceptions := if won then r.interceptions + 1 else r.interceptions,
       currentStreak := streak,
       bestStreak := if won && streak > r.bestStreak then streak else r.bestStreak)
  }

  function Touched(r: Record, block: int): Record {
    r.(firstBlock := if r.firstBlock.None? then Some(block) else r.firstBlock, lastBlock := Some(block))
  }

  function Counted(r: Record, e: IndexedEvent, a: string): Record {
    r.(operationsCreated := r.operationsCreated + Weight(Created, e, a), operationsJoined := r.operationsJoined + Weight(TookSeat, e, a),
       operationsLeft := r.operationsLeft + Weight(GaveSeat, e, a), probesBought := r.probesBought + Weight(Bought, e, a),
       probesSent := r.probesSent + Weight(Sent, e, a), defensesSubmitted := r.defensesSubmitted + Weight(Submitted, e, a),
       stakedWei := r.stakedWei + Weight(Staked, e, a), wonWei := r.wonWei + Weight(Won, e, a),
       creatorFeesWei := r.creatorFeesWei + Weight(Fees, e, a), returnedWei := r.returnedWei + Weight(Returned, e, a))
  }

  /** One more round: the bounded record of the longer history comes from the bounded record of the shorter one. */
  lemma ScoreStep(h: seq<bool>, won: bool)
    ensures var t := h + [won];
            && CountTrue(t) == CountTrue(h) + (if won then 1 else 0)
            && TrailingRun(t) == (if won then TrailingRun(h) + 1 else 0)
            && LongestRun(t) == (if won && TrailingRun(h) + 1 > LongestRun(h) then TrailingRun(h) + 1 else LongestRun(h))
            && LastOf(t, RECENT_ROUNDS)
               == (var recent := LastOf(h, RECENT_ROUNDS) + [won]; if |recent| > RECENT_ROUNDS then recent[1..] else recent)
  {
    assert (h + [won])[..|h|] == h;
  }

  lemma FirstIffLast(log: Log, a: string)
    ensures FirstBlock(log, a).Some? <==> LastBlock(log, a).Some?
    decreases |log|
  {
    if log != [] { FirstIffLast(log[..|log| - 1], a); }
  }

  lemma TotalStep(log: Log, e: IndexedEvent, a: string)
    ensures forall c :: Total(log + [e], c, a) == Total(log, c, a) + Weight(c, e, a)
  {
    hide Weight;
    assert (log + [e])[..|log|] == log;
  }

  lemma HistoryStep(log: Log, e: IndexedEvent, a: string)
    ensures History(log + [e], a) == if Scores(log, e, a) then History(log, a) + [IsWinner(e, a)] else History(log, a)
  {
    hide Scores, IsWinner;
    assert (log + [e])[..|log|] == log;
  }

  lemma BlocksStep(log: Log, e: IndexedEvent, a: string)
    ensures FirstBlock(log + [e], a) == if FirstBlock(log, a).None? && Touches(log, e, a) then Some(e.blockNumber) else FirstBlock(log, a)
    ensures LastBlock(log + [e], a) == if Touches(log, e, a) then Some(e.blockNumber) else LastBlock(log, a)
  {
    hide Touches;
    assert (log + [e])[..|log|] == log;
  }

  lemma SeatedStep(log: Log, e: IndexedEvent, lobby: string, a: string)
    ensures Seated(log + [e], lobby, a)
            <==> if e.PlayerJoined? && e.lobbyId == lobby && lobby != "" && Key(e.player) == Some(a) then true
                 else if e.PlayerLeft? && e.lobbyId == lobby && lobby != "" && Key(e.player) == Some(a) then false
                 else if (e.LobbyCancelled? || e.WinnerDetermined?) && e.lobbyId == lobby && lobby != "" then false
                 else Seated(log, lobby, a)
  {
    assert (log + [e])[..|log|] == log;
  }

  lemma CancelledStep(log: Log, e: IndexedEvent, lobby: string)
    ensures Cancelled(log + [e], lobby)
            <==> if e.LobbyCancelled? && e.lobbyId == lobby && lobby != "" then true
                 else if e.WinnerDetermined? && e.lobbyId == lobby && lobby != "" then false
                 else Cancelled(log, lobby)
  {
    assert (log + [e])[..|log|] == log;
  }

  /** A verdict counts nothing but the round. */
  lemma ScoringWeighsNothing(c: Counter, e: IndexedEvent, a: string)
    requires e.WinnerDetermined? || !Names(e, a)
    ensures Weight(c, e, a) == 0
  {
  }

  function Stepped(r: Record, e: IndexedEvent, a: string, scores: bool): Record
    requires scores ==> e.WinnerDetermined?
  {
    if scores then Touched(Scored(r, IsWinner(e, a)), e.blockNumber)
    else if Names(e, a) then Touched(Counted(r, e, a), e.blockNumber)
    else r
  }

  /** What one more event does to the record the log defines. */
  lemma RecordStep(log: Log, e: IndexedEvent, a: string)
    ensures RecordOf(log + [e], a) == Stepped(RecordOf(log, a), e, a, Scores(log, e, a))
  {
    hide Total, History, FirstBlock, LastBlock, Weight, CountTrue, TrailingRun, LongestRun, LastOf, Names, IsWinner,
         Seated, Cancelled;
    TotalStep(log, e, a);
    HistoryStep(log, e, a);
    BlocksStep(log, e, a);
    FirstIffLast(log, a);
    if Scores(log, e, a) {
      ScoreStep(History(log, a), IsWinner(e, a));
    }
    if e.WinnerDetermined? || !Names(e, a) {
      forall c: Counter
        ensures Weight(c, e, a) == 0
      {
        ScoringWeighsNothing(c, e, a);
      }
    }
  }

  // ------------------------------------------------------ the bounded state

  type Players = map<string, Record>

  type Seats = map<string, set<string>>

  function LookupIn(players: Players, a: string): Record { if a in players then players[a] else Blank(a) }

  predicate SitsIn(seats: Seats, lobby: string, a: string) { lobby in seats && a in seats[lobby] }

  /** Every record moved by exactly what the event is to that wallet. */
  ghost predicate RecordsAfter(e: IndexedEvent, before: Players, after: Players, scorers: set<string>) {
    && (scorers != {} ==> e.WinnerDetermined?)
    && forall a :: LookupIn(after, a) == Stepped(LookupIn(before, a), e, a, a in scorers)
  }

  ghost predicate SeatsAfter(e: IndexedEvent, before: Seats, after: Seats) {
    forall lobby, a ::
      SitsIn(after, lobby, a) <==>
      if e.PlayerJoined? && e.lobbyId == lobby && lobby != "" && Key(e.player) == Some(a) then true
      else if e.PlayerLeft? && e.lobbyId == lobby && lobby != "" && Key(e.player) == Some(a) then false
      else if (e.LobbyCancelled? || e.WinnerDetermined?) && e.lobbyId == lobby && lobby != "" then false
      else SitsIn(before, lobby, a)
  }

  ghost predicate UnplayedAfter(e: IndexedEvent, before: set<string>, after: set<string>) {
    forall lobby ::
      lobby in after <==>
      if e.LobbyCancelled? && e.lobbyId == lobby && lobby != "" then true
      else if e.WinnerDetermined? && e.lobbyId == lobby && lobby != "" then false
      else lobby in before
  }

  /** The wallet an event is about, if it is about one. */
  function Subject(e: IndexedEvent): Option<string> {
    match e
    case LobbyCreated(_, _, creator, _, _, _, _) => Key(creator)
    case PlayerJoined(_, lobby, player, _, _) => if lobby != "" then Key(player) else None
    case PlayerLeft(_, lobby, player, _, _) => if lobby != "" then Key(player) else None
    case ProbesPurchased(_, _, player, _, _) => Key(player)
    case ProbeSent(_, _, player) => Key(player)
    case DefenseSubmitted(_, _, player) => Key(player)
    case RewardClaimed(_, _, player, _) => Key(player)
    case RefundClaimed(_, _, player, _) => Key(player)
    case CreatorSettled(_, _, creator, _) => Key(creator)
    case _ => None
  }

  lemma SubjectIsNamed(e: IndexedEvent, a: string)
    ensures Names(e, a) <==> Subject(e) == Some(a)
  {
  }

  lemma CountedRecords(e: IndexedEvent, players: Players)
    ensures var who := Subject(e);
            RecordsAfter(e, players,
                         if who.Some? then players[who.value := Touched(Counted(LookupIn(players, who.value), e, who.value), e.blockNumber)]
                         else players, {})
  {
    hide Key, Counted, Touched, Names, Subject;
    forall a
      ensures Names(e, a) <==> Subject(e) == Some(a)
    {
      SubjectIsNamed(e, a);
    }
  }

  lemma CountingKeepsDates(r: Record, e: IndexedEvent, a: string)
    ensures Counted(Touched(r, e.blockNumber), e, a) == Touched(Counted(r, e, a), e.blockNumber)
  {
    hide Weight;
  }

  lemma OtherSeats(e: IndexedEvent, seats: Seats)
    requires e.PlayerJoined? ==> e.lobbyId == "" || Key(e.player).None?
    requires e.PlayerLeft? ==> e.lobbyId == "" || Key(e.player).None? || e.lobbyId !in seats
    requires e.LobbyCancelled? || e.WinnerDetermined? ==> e.lobbyId == ""
    ensures SeatsAfter(e, seats, seats)
  {
    hide Key;
  }

  lemma JoinedSeats(e: IndexedEvent, seats: Seats)
    requires e.PlayerJoined? && e.lobbyId != "" && Key(e.player).Some?
    ensures SeatsAfter(e, seats, seats[e.lobbyId := (if e.lobbyId in seats then seats[e.lobbyId] else {}) + {Key(e.player).value}])
  {
    hide Key;
  }

  lemma LeftSeats(e: IndexedEvent, seats: Seats)
    requires e.PlayerLeft? && e.lobbyId != "" && Key(e.player).Some? && e.lobbyId in seats
    ensures SeatsAfter(e, seats, seats[e.lobbyId := seats[e.lobbyId] - {Key(e.player).value}])
  {
    hide Key;
  }

  lemma EndedSeats(e: IndexedEvent, seats: Seats)
    requires (e.LobbyCancelled? || e.WinnerDetermined?) && e.lobbyId != ""
    ensures SeatsAfter(e, seats, seats - {e.lobbyId})
  {
    hide Key;
  }

  class PlayerLedger {
    var players: map<string, Record>
    var seats: map<string, set<string>>
    var unplayed: set<string>
    /** Everything folded so far. */
    ghost var log: Log

    /** Bounded state, unbounded meaning: every record is what the whole log defines. */
    ghost predicate Valid()
      reads this
    {
      && (forall a :: LookupIn(players, a) == RecordOf(log, a))
      && (forall a :: a in players ==> players[a].lastBlock.Some?)
      && (forall lobby, a :: SitsIn(seats, lobby, a) <==> Seated(log, lobby, a))
      && (forall lobby :: lobby in unplayed <==> Cancelled(log, lobby))
    }

    constructor ()
      ensures Valid() && log == []
    {
      players, seats, unplayed := map[], map[], {};
      log := [];
    }

    method Touch(a: string, block: int) returns (r: Record)
      modifies this`players
      ensures r == Touched(LookupIn(old(players), a), block)
      ensures players == old(players)[a := r]
    {
      r := if a in players then players[a] else Blank(a);
      if r.firstBlock.None? {
        r := r.(firstBlock := Some(block));
      }
      r := r.(lastBlock := Some(block));
      players := players[a := r];
    }

    method Apply(e: IndexedEvent)
      requires Valid()
      modifies this
      ensures Valid() && log == old(log) + [e]
    {
      hide RecordOf, Seated, Cancelled, Stepped, Key;
      ghost var before, wasPlayers, wasSeats, wasUnplayed := log, players, seats, unplayed;
      assert forall a :: Scores(before, e, a) <==> a in Scorers(e, wasSeats, wasUnplayed);
      FoldIn(e);
      log := log + [e];
      forall a
        ensures LookupIn(players, a) == RecordOf(log, a)
      {
        RecordStep(before, e, a);
      }
      forall lobby, a
        ensures SitsIn(seats, lobby, a) <==> Seated(log, lobby, a)
      {
        SeatedStep(before, e, lobby, a);
      }
      forall lobby
        ensures lobby in unplayed <==> Cancelled(log, lobby)
      {
        CancelledStep(before, e, lobby);
      }
    }

    /** Who a verdict scores: everyone seated, unless the round was never played. */
    static function Scorers(e: IndexedEvent, seats: Seats, unplayed: set<string>): set<string> {
      if e.WinnerDetermined? && e.lobbyId != "" && e.lobbyId !in unplayed && e.lobbyId in seats then seats[e.lobbyId] else {}
    }

    /** One event into the bounded state. */
    method FoldIn(e: IndexedEvent)
      requires forall a :: a in players ==> players[a].lastBlock.Some?
      modifies this`players, this`seats, this`unplayed
      ensures forall a :: a in players ==> players[a].lastBlock.Some?
      ensures RecordsAfter(e, old(players), players, Scorers(e, old(seats), old(unplayed)))
      ensures SeatsAfter(e, old(seats), seats)
      ensures UnplayedAfter(e, old(unplayed), unplayed)
    {
      hide RecordsAfter, SeatsAfter, Counted, Key;
      if !e.WinnerDetermined? { CountedRecords(e, players); }
      match e {
        case LobbyCreated(_, _, creator, _, _, _, _) => Count(Key(creator), e);
        case PlayerJoined(_, lobbyId, player, _, _) =>
          if Key(player).Some? && lobbyId != "" {
            Count(Key(player), e);
            var seated := if lobbyId in seats then seats[lobbyId] else {};
            JoinedSeats(e, seats);
            seats := seats[lobbyId := seated + {Key(player).value}];
          } else {
            OtherSeats(e, seats);
          }
        case PlayerLeft(_, lobbyId, player, _, _) =>
          if Key(player).Some? && lobbyId != "" {
            Count(Key(player), e);
          }
          if Key(player).Some? && lobbyId != "" && lobbyId in seats {
            LeftSeats(e, seats);
            seats := seats[lobbyId := seats[lobbyId] - {Key(player).value}];
          } else {
            OtherSeats(e, seats);
          }
        case ProbesPurchased(_, _, player, _, _) => Count(Key(player), e);
        case ProbeSent(_, _, player) => Count(Key(player), e);
        case DefenseSubmitted(_, _, player) => Count(Key(player), e);
        case LobbyCancelled(_, lobbyId, _) =>
          if lobbyId != "" {
            EndedSeats(e, seats);
            unplayed := unplayed + {lobbyId};
            seats := seats - {lobbyId};
          } else {
            OtherSeats(e, seats);
          }
        case WinnerDetermined(_, _, _, _) => ApplyWinnerDetermined(e);
        case RewardClaimed(_, _, player, _) => Count(Key(player), e);
        case RefundClaimed(_, _, player, _) => Count(Key(player), e);
        case CreatorSettled(_, _, creator, _) => Count(Key(creator), e);
        case _ =>
      }
      if !e.PlayerJoined? && !e.PlayerLeft? && !e.LobbyCancelled? && !e.WinnerDetermined? {
        OtherSeats(e, seats);
      }
    }

    /** What one wallet did, as the whole log defines it; an address with no history has a blank record. */
    method RecordFor(address: string) returns (r: Record)
      requires Valid()
      ensures r == if Key(address).Some? then RecordOf(log, Key(address).value) else Blank(LowerCase(address))
    {
      hide RecordOf, Key;
      r := if Key(address).Some? then LookupIn(players, Key(address).value) else Blank(LowerCase(address));
    }

    /** One wallet's counters moved by an event that names it. */
    method Count(who: Option<string>, e: IndexedEvent)
      modifies this`players
      ensures who.None? ==> players == old(players)
      ensures who.Some? ==>
                players == old(players)[who.value := Touched(Counted(LookupIn(old(players), who.value), e, who.value), e.blockNumber)]
    {
      hide Counted, Touched;
      if who.Some? {
        var r := Touch(who.value, e.blockNumber);
        CountingKeepsDates(LookupIn(old(players), who.value), e, who.value);
        players := players[who.value := Counted(r, e, who.value)];
      }
    }

    /** The one event that scores anybody: everyone seated, unless the round was never played. */
    method ApplyWinnerDetermined(e: IndexedEvent)
      requires e.WinnerDetermined? && forall a :: a in players ==> players[a].lastBlock.Some?
      modifies this`players, this`seats, this`unplayed
      ensures forall a :: a in players ==> players[a].lastBlock.Some?
      ensures RecordsAfter(e, old(players), players, Scorers(e, old(seats), old(unplayed)))
      ensures SeatsAfter(e, old(seats), seats)
      ensures UnplayedAfter(e, old(unplayed), unplayed)
    {
      hide IsWinner, Scored, SeatsAfter, Key;
      if e.lobbyId == "" {
        OtherSeats(e, seats);
        return;
      }
      EndedSeats(e, seats);
      var seated := if e.lobbyId in seats then seats[e.lobbyId] else {};
      seats := seats - {e.lobbyId};
      if e.lobbyId in unplayed {
        unplayed := unplayed - {e.lobbyId};
        return;
      }
      var left := seated;
      while left != {}
        invariant left <= seated
        invariant seats == old(seats) - {e.lobbyId} && unplayed == old(unplayed)
        invariant forall a :: a in players ==> players[a].lastBlock.Some?
        invariant RecordsAfter(e, old(players), players, seated - left)
        decreases left
      {
        var player: string :| player in left;
        left := left - {player};
        ScoreSeat(player, IsWinner(e, player), e.blockNumber);
      }
      assert seated - left == seated;
    }

    /** One seat's round. */
    method ScoreSeat(player: string, won: bool, block: int)
      modifies this`players
      ensures players == old(players)[player := Touched(Scored(LookupIn(old(players), player), won), block)]
    {
      var r := Touch(player, block);
      r := r.(roundsPlayed := r.roundsPlayed + 1);
      r := r.(recentRounds := r.recentRounds + [won]);
      if |r.recentRounds| > RECENT_ROUNDS {
        r := r.(recentRounds := r.recentRounds[1..]);
      }
      if won {
        r := r.(interceptions := r.interceptions + 1);
        r := r.(currentStreak := r.currentStreak + 1);
        if r.currentStreak > r.bestStreak {
          r := r.(bestStreak := r.currentStreak);
        }
      } else {
        r := r.(currentStreak := 0);
      }
      players := players[player := r];
    }
  }
}
