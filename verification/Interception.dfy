/** Judging defenses: the snapshot test at the submit block, the miss classes, and the earliest-block ranking. */
module Interception {
  import opened Options
  import opened World

  type Address = nat

  datatype Trajectory = Trajectory(pointA: Point, pointB: Point)

  /** A Defense Point as the judge sees it: unsealed, or still sealed. */
  datatype Attempt = Attempt(id: nat, participant: Address, point: Option<DefensePoint>, submittedAtBlock: int)

  datatype Flight = Flight(launchBlock: int, durationBlocks: nat) {
    function ImpactBlock(): int { launchBlock + durationBlocks }
  }

  /** One attack as an attempt is judged against it; distances are compared by their squares, the radius being non-negative. */
  datatype Scene = Scene(flight: Flight, path: Trajectory, field: Field, radius: real)

  /** A non-negative square root for every non-negative real: what `Math.sqrt` supplies. */
  type SquareRoot = real -> real

  ghost predicate IsSquareRoot(sqrt: SquareRoot) {
    forall v :: IsRoot(sqrt(v), v)
  }

  function PositionAtProgress(path: Trajectory, progress: real): Point {
    At(path.pointA, path.pointB, Clamp01(progress))
  }

  function BlockAtProgress(f: Flight, progress: real): real {
    f.launchBlock as real + progress * f.durationBlocks as real
  }

  /** The submit block itself: climb speed and altitude do not move the clock. */
  function InterceptorArrivalBlock(submittedAtBlock: int): int { submittedAtBlock }

  predicate InFlight(f: Flight, block: int) {
    f.durationBlocks > 0 && f.launchBlock <= block < f.ImpactBlock()
  }

  function ProgressAt(f: Flight, block: int): real
    requires f.durationBlocks > 0
  {
    (block - f.launchBlock) as real / f.durationBlocks as real
  }

  // ------------------------------------------------------------ one attempt

  datatype DefenseStatus = Pending | Intercepted | Missed

  datatype Reason = StillSealed | InsideAtSubmit | DownAlready | PassedBySubmit | NotThereYet | OutsideAtSubmit

  datatype Result = Result(attemptId: nat, participant: Address, status: DefenseStatus,
                           interceptionProgress: Option<real>, interceptionBlock: Option<real>,
                           interceptionPoint: Option<Point>, missDistanceSq: Option<real>,
                           arrivalBlock: Option<int>, isWinner: bool, reason: Reason)

  predicate IsLateArrival(r: Result) {
    r.status == Missed && r.interceptionBlock.Some? && r.arrivalBlock.Some?
    && r.arrivalBlock.value as real > r.interceptionBlock.value
  }

  predicate IsTooEarly(r: Result) {
    r.status == Missed && r.interceptionBlock.Some? && r.arrivalBlock.Some?
    && (r.arrivalBlock.value as real) < r.interceptionBlock.value
  }

  predicate IsAlreadyDown(r: Result) { r.status == Intercepted && !r.isWinner }

  predicate IsSpatialMiss(r: Result) { r.status == Missed && r.interceptionBlock.None? }

  /** The snapshot distance at the submit block, when the threat is flying then. */
  function SnapshotSq(a: Attempt, s: Scene): Option<real>
    requires a.point.Some?
  {
    var arrival := InterceptorArrivalBlock(a.submittedAtBlock);
    if InFlight(s.flight, arrival)
    then Some(DistSq(DefensePointToWorld(a.point.value, s.field), PositionAtProgress(s.path, ProgressAt(s.flight, arrival))))
    else None
  }

  /** The payout test: unsealed, in flight at the submit block, and inside the radius at that moment. */
  predicate IsHit(a: Attempt, s: Scene) {
    a.point.Some? && SnapshotSq(a, s).Some? && SnapshotSq(a, s).value <= Square(s.radius)
  }

  /** The chord test: did the path ever enter this point's circle. */
  function CheckInterception(p: DefensePoint, s: Scene, sqrt: SquareRoot): Entry
    requires IsSquareRoot(sqrt)
  {
    var center := DefensePointToWorld(p, s.field);
    var disc := Along(s.path.pointA, s.path.pointB, center, s.radius).Discriminant();
    assert IsRoot(sqrt(disc), disc);
    FirstEntryIntoCircle(s.path.pointA, s.path.pointB, center, s.radius, sqrt(disc))
  }

  function ResolveDefense(a: Attempt, s: Scene, sqrt: SquareRoot): Result
    requires IsSquareRoot(sqrt)
  {
    if a.point.None? then
      Result(a.id, a.participant, Pending, None, None, None, None, None, false, StillSealed)
    else
      var arrival := InterceptorArrivalBlock(a.submittedAtBlock);
      var snapshot := SnapshotSq(a, s);
      if snapshot.Some? && snapshot.value <= Square(s.radius) then
        var t := ProgressAt(s.flight, arrival);
        Result(a.id, a.participant, Intercepted, Some(t), Some(arrival as real), Some(PositionAtProgress(s.path, t)),
               snapshot, Some(arrival), false, InsideAtSubmit)
      else
        var entry := CheckInterception(a.point.value, s, sqrt);
        var miss := if snapshot.Some? then snapshot.value
                    else ClosestApproach(DefensePointToWorld(a.point.value, s.field), s.path.pointA, s.path.pointB).distanceSq;
        if entry.Entered? && arrival as real != BlockAtProgress(s.flight, entry.t) then
          Result(a.id, a.participant, Missed, Some(entry.t), Some(BlockAtProgress(s.flight, entry.t)), Some(entry.point),
                 Some(miss), Some(arrival), false,
                 if arrival as real > BlockAtProgress(s.flight, entry.t) then PassedBySubmit else NotThereYet)
        else
          Result(a.id, a.participant, Missed, None, None, None, Some(miss), Some(arrival), false, OutsideAtSubmit)
  }

  lemma ProgressInFlight(f: Flight, block: int)
    requires InFlight(f, block)
    ensures 0.0 <= ProgressAt(f, block) < 1.0
    ensures BlockAtProgress(f, ProgressAt(f, block)) == block as real
  {
    var n, d := (block - f.launchBlock) as real, f.durationBlocks as real;
    assert (n / d) * d == n;
    ScaledSign(d, n / d - 1.0, n - d);
    ScaledSign(d, n / d, n);
  }

  /** Every snapshot hit also passes the chord test, with entry no later than the hit. */
  lemma HitPassesChordTest(a: Attempt, s: Scene, sqrt: SquareRoot)
    requires IsSquareRoot(sqrt) && IsHit(a, s)
    ensures var e := CheckInterception(a.point.value, s, sqrt);
            e.Entered? && e.t <= ProgressAt(s.flight, a.submittedAtBlock) < 1.0
  {
    var center := DefensePointToWorld(a.point.value, s.field);
    var t := ProgressAt(s.flight, a.submittedAtBlock);
    ProgressInFlight(s.flight, a.submittedAtBlock);
    assert Clamp01(t) == t;
    DistSqSymmetric(center, At(s.path.pointA, s.path.pointB, t));
    var disc := Along(s.path.pointA, s.path.pointB, center, s.radius).Discriminant();
    assert IsRoot(sqrt(disc), disc);
    WithinMeansEntered(s.path.pointA, s.path.pointB, center, s.radius, sqrt(disc), t);
  }

  /**
   * A point whose circle the path does enter is filed as a spatial miss only in one corner: it was
   * submitted exactly at the impact block, and the path reaches the circle exactly at its end.
   */
  lemma SpatialMissOfACrossedCircle(a: Attempt, s: Scene, sqrt: SquareRoot)
    requires IsSquareRoot(sqrt) && a.point.Some? && s.flight.durationBlocks > 0
    requires CheckInterception(a.point.value, s, sqrt).Entered?
    ensures IsSpatialMiss(ResolveDefense(a, s, sqrt))
            <==> CheckInterception(a.point.value, s, sqrt).t == 1.0 && a.submittedAtBlock == s.flight.ImpactBlock()
  {
    hide *;
    var e := CheckInterception(a.point.value, s, sqrt);
    SpatialMissMeans(a, s, sqrt);
    EntryAtSubmit(a, s, sqrt);
    if a.submittedAtBlock as real == BlockAtProgress(s.flight, e.t) {
      EntryBlock(s.flight, a.submittedAtBlock, e.t);
    }
    ImpactIsTheEnd(s.flight, a.submittedAtBlock);
  }

  /** Filed as a spatial miss: no snapshot hit, and the path reaches the circle at the submit block itself. */
  lemma SpatialMissMeans(a: Attempt, s: Scene, sqrt: SquareRoot)
    requires IsSquareRoot(sqrt) && a.point.Some? && CheckInterception(a.point.value, s, sqrt).Entered?
    ensures IsSpatialMiss(ResolveDefense(a, s, sqrt))
            <==> !IsHit(a, s) && a.submittedAtBlock as real == BlockAtProgress(s.flight, CheckInterception(a.point.value, s, sqrt).t)
  {
    hide CheckInterception, SnapshotSq, Square, BlockAtProgress;
  }

  /** The reported fraction lies on the path; a snapshot taken there is a hit. */
  lemma EntryAtSubmit(a: Attempt, s: Scene, sqrt: SquareRoot)
    requires IsSquareRoot(sqrt) && a.point.Some? && CheckInterception(a.point.value, s, sqrt).Entered?
    ensures var t := CheckInterception(a.point.value, s, sqrt).t;
            && 0.0 <= t <= 1.0
            && (InFlight(s.flight, a.submittedAtBlock) && ProgressAt(s.flight, a.submittedAtBlock) == t ==> IsHit(a, s))
    ensures IsHit(a, s) ==> InFlight(s.flight, a.submittedAtBlock)
  {
    hide FirstEntryIntoCircle, Square, DistSq, InFlight, ProgressAt, At;
    var center := DefensePointToWorld(a.point.value, s.field);
    var disc := Along(s.path.pointA, s.path.pointB, center, s.radius).Discriminant();
    assert IsRoot(sqrt(disc), disc);
    EntryIsWithin(s.path.pointA, s.path.pointB, center, s.radius, sqrt(disc));
    var t := CheckInterception(a.point.value, s, sqrt).t;
    assert Clamp01(t) == t;
    DistSqSymmetric(center, At(s.path.pointA, s.path.pointB, t));
  }

  /** A block at a fraction of the flight is in flight at that fraction, or is the impact block. */
  lemma EntryBlock(f: Flight, block: int, t: real)
    requires f.durationBlocks > 0 && 0.0 <= t <= 1.0 && block as real == BlockAtProgress(f, t)
    ensures if InFlight(f, block) then ProgressAt(f, block) == t else t == 1.0 && block == f.ImpactBlock()
    ensures t == 1.0 ==> block == f.ImpactBlock()
  {
    var d := f.durationBlocks as real;
    BlockOfProgressBounds(t, d);
    UnitProgress(t, d);
    SameProgress(f, block, t);
    hide ProgressAt;
    assert block as real == f.launchBlock as real + t * d;
  }

  lemma ImpactIsTheEnd(f: Flight, block: int)
    ensures block == f.ImpactBlock() ==> block as real == BlockAtProgress(f, 1.0) && !InFlight(f, block)
  {
  }

  lemma BlockOfProgressBounds(t: real, d: real)
    requires 0.0 <= t <= 1.0 && d > 0.0
    ensures 0.0 <= t * d <= d
  {
    ProductSign(t, d, t * d);
    ProductSign(1.0 - t, d, (1.0 - t) * d);
  }

  lemma UnitProgress(t: real, d: real)
    requires d > 0.0
    ensures t * d == d <==> t == 1.0
  {
    ScaledSign(d, t - 1.0, (t - 1.0) * d);
    ScaledSign(d, 1.0 - t, (1.0 - t) * d);
  }

  lemma SameProgress(f: Flight, block: int, t: real)
    requires f.durationBlocks > 0 && block as real == BlockAtProgress(f, t)
    ensures ProgressAt(f, block) == t
  {
    var d := f.durationBlocks as real;
    assert (block - f.launchBlock) as real == t * d;
    assert (t * d) / d == t;
  }

  // --------------------------------------------------------------- ranking

  /** The attempts that pass the payout test, in submission order. */
  function Hits(attempts: seq<Attempt>, s: Scene): (r: seq<Attempt>)
    ensures forall a :: a in r <==> a in attempts && IsHit(a, s)
  {
    if attempts == [] then []
    else
      var rest := Hits(attempts[..|attempts| - 1], s);
      var last := attempts[|attempts| - 1];
      assert attempts == attempts[..|attempts| - 1] + [last];
      if IsHit(last, s) then rest + [last] else rest
  }

  function EarliestBlock(hits: seq<Attempt>): (b: int)
    requires hits != []
    ensures exists h :: h in hits && h.submittedAtBlock == b
    ensures forall h :: h in hits ==> b <= h.submittedAtBlock
  {
    var last := hits[|hits| - 1];
    assert last in hits && hits == hits[..|hits| - 1] + [last];
    if |hits| == 1 then last.submittedAtBlock
    else
      var b := EarliestBlock(hits[..|hits| - 1]);
      if last.submittedAtBlock < b then last.submittedAtBlock else b
  }

  /** Who submitted in a given block, in order. */
  function ParticipantsAt(hits: seq<Attempt>, block: int): (r: seq<Address>)
    ensures forall w :: w in r <==> exists h :: h in hits && h.submittedAtBlock == block && h.participant == w
    ensures |r| <= |hits|
  {
    if hits == [] then []
    else
      var last := hits[|hits| - 1];
      assert hits == hits[..|hits| - 1] + [last];
      var rest := ParticipantsAt(hits[..|hits| - 1], block);
      if last.submittedAtBlock == block then rest + [last.participant] else rest
  }

  datatype Resolution =
    | NotStopped
    | Stopped(point: Point, progress: real, block: int, winners: seq<Address>)

  function ResolveAttack(attempts: seq<Attempt>, s: Scene): Resolution {
    var hits := Hits(attempts, s);
    if hits == [] then NotStopped
    else
      var kill := EarliestBlock(hits);
      assert InFlight(s.flight, kill);
      var t := ProgressAt(s.flight, kill);
      Stopped(PositionAtProgress(s.path, t), t, kill, ParticipantsAt(hits, kill))
  }

  function Winners(r: Resolution): seq<Address> { if r.Stopped? then r.winners else [] }

  /** A hit no other hit precedes. */
  predicate IsKill(a: Attempt, attempts: seq<Attempt>, s: Scene) {
    && a in attempts && IsHit(a, s)
    && forall b :: b in attempts && IsHit(b, s) ==> a.submittedAtBlock <= b.submittedAtBlock
  }

  /**
   * The winners are exactly the hits at the minimum submit block; the attack is stopped iff there is
   * one, and every one of them met the threat at the block, the progress and the point that are published.
   */
  lemma WinnersAreEarliestHits(attempts: seq<Attempt>, s: Scene)
    ensures var r := ResolveAttack(attempts, s);
            && (r.Stopped? <==> exists a :: a in attempts && IsHit(a, s))
            && (r.Stopped? <==> Winners(r) != [])
            && (forall w :: w in Winners(r) <==> exists a :: IsKill(a, attempts, s) && a.participant == w)
            && (forall a :: IsKill(a, attempts, s) ==>
                  r.Stopped? && r.block == a.submittedAtBlock && InFlight(s.flight, r.block)
                  && r.progress == ProgressAt(s.flight, r.block) && r.point == PositionAtProgress(s.path, r.progress)
                  && DistSq(DefensePointToWorld(a.point.value, s.field), r.point) <= Square(s.radius))
  {
    var hits := Hits(attempts, s);
    var r := ResolveAttack(attempts, s);
    if r.Stopped? {
      var first :| first in hits && first.submittedAtBlock == r.block;
      assert IsKill(first, attempts, s);
      assert first.participant in r.winners;
      forall w | w in r.winners
        ensures exists a :: IsKill(a, attempts, s) && a.participant == w
      {
        var h :| h in hits && h.submittedAtBlock == r.block && h.participant == w;
        assert IsKill(h, attempts, s);
      }
    }
  }

  /** What is published but for the list of winners is a function of which attempts were made. */
  lemma VerdictIgnoresOrder(xs: seq<Attempt>, ys: seq<Attempt>, s: Scene)
    requires forall a :: a in xs <==> a in ys
    ensures var x, y := ResolveAttack(xs, s), ResolveAttack(ys, s);
            && x.Stopped? == y.Stopped?
            && (x.Stopped? ==> x.block == y.block && x.progress == y.progress && x.point == y.point)
            && (forall w :: w in Winners(x) <==> w in Winners(y))
  {
    hide *;
    WinnersAreEarliestHits(xs, s);
    WinnersAreEarliestHits(ys, s);
    forall a
      ensures IsKill(a, xs, s) == IsKill(a, ys, s)
    {
      KillIgnoresOrder(xs, ys, s, a);
    }
    if Winners(ResolveAttack(xs, s)) != [] {
      var w := Winners(ResolveAttack(xs, s))[0];
      assert w in Winners(ResolveAttack(xs, s));
      var a :| IsKill(a, xs, s) && a.participant == w;
      assert IsKill(a, ys, s);
    }
  }

  /** Who hit in a given block, counted with multiplicity. */
  ghost function HittersAt(attempts: seq<Attempt>, s: Scene, block: int): multiset<Address> {
    multiset(ParticipantsAt(Hits(attempts, s), block))
  }

  lemma HittersSplit(xs: seq<Attempt>, ys: seq<Attempt>, s: Scene, block: int)
    ensures HittersAt(xs + ys, s, block) == HittersAt(xs, s, block) + HittersAt(ys, s, block)
  {
    hide Hits, ParticipantsAt;
    HitsSplit(xs, ys, s);
    ParticipantsSplit(Hits(xs, s), Hits(ys, s), block);
  }

  /** The first of one list, taken out of wherever it stands in the other. */
  lemma TakeOut(xs: seq<Attempt>, ys: seq<Attempt>) returns (before: seq<Attempt>, after: seq<Attempt>)
    requires xs != [] && multiset(xs) == multiset(ys)
    ensures ys == before + ([xs[0]] + after) && multiset(xs[1..]) == multiset(before + after)
  {
    var x := xs[0];
    assert x in multiset(xs);
    assert x in multiset(ys);
    var i :| 0 <= i < |ys| && ys[i] == x;
    before, after := ys[..i], ys[i + 1..];
    var rest := xs[1..];
    assert xs == [x] + rest;
    assert multiset([x] + rest) == multiset{x} + multiset(rest);
    assert ys == before + ([x] + after);
    assert multiset(before + ([x] + after)) == multiset(before) + multiset([x] + after);
    assert multiset([x] + after) == multiset{x} + multiset(after);
    assert multiset(before + after) == multiset(before) + multiset(after);
    assert multiset(rest) == multiset(xs) - multiset{x};
  }

  lemma {:induction false} HittersIgnoreOrder(xs: seq<Attempt>, ys: seq<Attempt>, s: Scene, block: int)
    requires multiset(xs) == multiset(ys)
    ensures HittersAt(xs, s, block) == HittersAt(ys, s, block)
  {
    hide HittersAt;
    if xs == [] {
      assert |ys| == |multiset(ys)|;
      assert ys == xs;
    } else {
      var x, rest := [xs[0]], xs[1..];
      var before, after := TakeOut(xs, ys);
      HittersIgnoreOrder(rest, before + after, s, block);
      assert xs == x + rest;
      HittersSplit(x, rest, s, block);
      HittersSplit(before, x + after, s, block);
      HittersSplit(x, after, s, block);
      HittersSplit(before, after, s, block);
    }
  }

  /** Permuting the attempts changes nothing but the order the winners are listed in - so not their number, nor a share. */
  lemma ResolutionIgnoresOrder(xs: seq<Attempt>, ys: seq<Attempt>, s: Scene)
    requires multiset(xs) == multiset(ys)
    ensures var x, y := ResolveAttack(xs, s), ResolveAttack(ys, s);
            && x.Stopped? == y.Stopped?
            && (x.Stopped? ==> x.block == y.block && x.progress == y.progress && x.point == y.point)
            && multiset(Winners(x)) == multiset(Winners(y)) && |Winners(x)| == |Winners(y)|
  {
    forall a
      ensures a in xs <==> a in ys
    {
      assert a in xs <==> a in multiset(xs);
      assert a in ys <==> a in multiset(ys);
    }
    VerdictIgnoresOrder(xs, ys, s);
    var x, y := ResolveAttack(xs, s), ResolveAttack(ys, s);
    if x.Stopped? {
      HittersIgnoreOrder(xs, ys, s, x.block);
      StoppedWinners(xs, s);
      StoppedWinners(ys, s);
    }
    assert |multiset(Winners(x))| == |Winners(x)| && |multiset(Winners(y))| == |Winners(y)|;
  }

  lemma StoppedWinners(attempts: seq<Attempt>, s: Scene)
    ensures var r := ResolveAttack(attempts, s); r.Stopped? ==> multiset(r.winners) == HittersAt(attempts, s, r.block)
  {
    hide Hits, ParticipantsAt;
  }

  lemma KillIgnoresOrder(xs: seq<Attempt>, ys: seq<Attempt>, s: Scene, a: Attempt)
    requires forall b :: b in xs <==> b in ys
    ensures IsKill(a, xs, s) == IsKill(a, ys, s)
  {
  }

  /** Shots fired after the kill change nothing, wherever they are filed, hits or not. */
  lemma LaterAttemptChangesNothing(before: seq<Attempt>, late: Attempt, after: seq<Attempt>, s: Scene)
    requires var r := ResolveAttack(before + after, s); r.Stopped? && late.submittedAtBlock > r.block
    ensures ResolveAttack(before + [late] + after, s) == ResolveAttack(before + after, s)
  {
    var kill := ResolveAttack(before + after, s).block;
    var b, l, a := Hits(before, s), Hits([late], s), Hits(after, s);
    HitsSplit(before, after, s);
    HitsSplit(before + [late], after, s);
    HitsSplit(before, [late], s);
    assert kill == EarliestBlock(b + a);
    assert forall h: Attempt :: h in l ==> h == late;
    LaterHitsChangeNothing(b, l, a, kill);
  }

  lemma LaterHitsChangeNothing(b: seq<Attempt>, l: seq<Attempt>, a: seq<Attempt>, kill: int)
    requires b + a != [] && kill == EarliestBlock(b + a)
    requires forall h :: h in l ==> h.submittedAtBlock > kill
    ensures EarliestBlock(b + l + a) == kill
    ensures ParticipantsAt(b + l + a, kill) == ParticipantsAt(b + a, kill)
  {
    hide *;
    EarliestSurvives(b, l, a, kill);
    ParticipantsSplit(b, a, kill);
    ParticipantsSplit(b + l, a, kill);
    ParticipantsSplit(b, l, kill);
    NobodyAt(l, kill);
  }

  lemma EarliestSurvives(b: seq<Attempt>, l: seq<Attempt>, a: seq<Attempt>, kill: int)
    requires b + a != [] && kill == EarliestBlock(b + a)
    requires forall h :: h in l ==> h.submittedAtBlock > kill
    ensures EarliestBlock(b + l + a) == kill
  {
    hide *;
    var all := b + l + a;
    var first: Attempt :| first in b + a && first.submittedAtBlock == kill;
    assert first in all;
    var least: Attempt :| least in all && least.submittedAtBlock == EarliestBlock(all);
    assert least in l || least in b + a;
  }

  lemma {:induction false} NobodyAt(hits: seq<Attempt>, block: int)
    requires forall h :: h in hits ==> h.submittedAtBlock != block
    ensures ParticipantsAt(hits, block) == []
  {
    if hits != [] {
      NobodyAt(hits[..|hits| - 1], block);
    }
  }

  lemma {:induction false} HitsSplit(xs: seq<Attempt>, ys: seq<Attempt>, s: Scene)
    ensures Hits(xs + ys, s) == Hits(xs, s) + Hits(ys, s)
  {
    if ys == [] {
      assert xs + ys == xs;
    } else {
      var n := |ys| - 1;
      assert (xs + ys)[..|xs + ys| - 1] == xs + ys[..n];
      HitsSplit(xs, ys[..n], s);
    }
  }

  lemma {:induction false} ParticipantsSplit(xs: seq<Attempt>, ys: seq<Attempt>, block: int)
    ensures ParticipantsAt(xs + ys, block) == ParticipantsAt(xs, block) + ParticipantsAt(ys, block)
  {
    if ys == [] {
      assert xs + ys == xs;
    } else {
      var n := |ys| - 1;
      assert (xs + ys)[..|xs + ys| - 1] == xs + ys[..n];
      ParticipantsSplit(xs, ys[..n], block);
    }
  }

  // ------------------------------------------- the whole resolution, in place

  /** The attempts that were unsealed for judging, in order. */
  function Opened(attempts: seq<Attempt>): (r: seq<Attempt>)
    ensures forall a :: a in r <==> a in attempts && a.point.Some?
  {
    if attempts == [] then []
    else
      var rest := Opened(attempts[..|attempts| - 1]);
      var last := attempts[|attempts| - 1];
      assert attempts == attempts[..|attempts| - 1] + [last];
      if last.point.Some? then rest + [last] else rest
  }

  /** One attempt's final record: its own verdict, then the comparison with the kill. */
  function Judged(a: Attempt, s: Scene, sqrt: SquareRoot, r: Resolution): Result
    requires IsSquareRoot(sqrt)
  {
    var own := ResolveDefense(a, s, sqrt);
    if own.status != Intercepted || r.NotStopped? then own
    else if a.submittedAtBlock == r.block then own.(isWinner := true)
    else own.(reason := DownAlready)
  }

  /** An unsealed attempt ends as exactly one of: winner, already down, too early, too late, spatial miss. */
  lemma ExactlyOneClass(attempts: seq<Attempt>, a: Attempt, s: Scene, sqrt: SquareRoot)
    requires IsSquareRoot(sqrt) && a in attempts && a.point.Some?
    ensures var r := ResolveAttack(attempts, s);
            var j := Judged(a, s, sqrt, r);
            && (j.isWinner <==> IsKill(a, attempts, s))
            && (IsAlreadyDown(j) <==> IsHit(a, s) && !IsKill(a, attempts, s))
            && [j.isWinner, IsAlreadyDown(j), IsTooEarly(j), IsLateArrival(j), IsSpatialMiss(j)]
               in [[true, false, false, false, false], [false, true, false, false, false], [false, false, true, false, false],
                   [false, false, false, true, false], [false, false, false, false, true]]
  {
    WinnersAreEarliestHits(attempts, s);
    var r := ResolveAttack(attempts, s);
    var own := ResolveDefense(a, s, sqrt);
    assert own.status == Intercepted <==> IsHit(a, s);
    if IsHit(a, s) && r.Stopped? && a.submittedAtBlock == r.block {
      assert IsKill(a, attempts, s);
    }
  }

  /** `hits` are the unsealed attempts that the result indices in `at` point to. */
  ghost predicate Points(unsealed: seq<Attempt>, at: seq<nat>, hits: seq<Attempt>) {
    && |at| == |hits|
    && (forall n :: 0 <= n < |at| ==> at[n] < |unsealed| && unsealed[at[n]] == hits[n])
    && (forall x, y :: 0 <= x < y < |at| ==> at[x] < at[y])
  }

  lemma PointsWider(unsealed: seq<Attempt>, at: seq<nat>, hits: seq<Attempt>, a: Attempt)
    requires Points(unsealed, at, hits)
    ensures |unsealed| !in at
    ensures Points(unsealed + [a], at, hits)
    ensures Points(unsealed + [a], at + [|unsealed|], hits + [a])
  {
  }

  /** Every opened attempt's own verdict, and which of the results are interceptors. */
  method JudgeEach(attempts: seq<Attempt>, s: Scene, sqrt: SquareRoot)
    returns (results: seq<Result>, interceptors: seq<nat>)
    requires IsSquareRoot(sqrt)
    ensures Owned(results, Opened(attempts), interceptors, s, sqrt)
    ensures Points(Opened(attempts), interceptors, Hits(attempts, s))
  {
    hide *;
    results, interceptors := [], [];
    NothingJudged(s);
    ghost var unsealed, hits := Opened(attempts[..0]), Hits(attempts[..0], s);
    for n := 0 to |attempts|
      invariant unsealed == Opened(attempts[..n]) && hits == Hits(attempts[..n], s)
      invariant Points(unsealed, interceptors, hits) && Owned(results, unsealed, interceptors, s, sqrt)
    {
      assert attempts[..n + 1] == attempts[..n] + [attempts[n]];
      OneMore(attempts[..n], attempts[n], s, sqrt);
      if attempts[n].point.Some? {
        var result := ResolveDefense(attempts[n], s, sqrt);
        PointsWider(unsealed, interceptors, hits, attempts[n]);
        OwnedWider(results, unsealed, interceptors, s, sqrt, attempts[n]);
        if result.status == Intercepted {
          interceptors := interceptors + [|results|];
          hits := hits + [attempts[n]];
        }
        results := results + [result];
        unsealed := unsealed + [attempts[n]];
      }
    }
    assert attempts[..|attempts|] == attempts;
  }

  /** The results are the attempts' own verdicts, and `at` lists the interceptors among them. */
  ghost predicate Owned(results: seq<Result>, unsealed: seq<Attempt>, at: seq<nat>, s: Scene, sqrt: SquareRoot)
    requires IsSquareRoot(sqrt)
  {
    && |results| == |unsealed|
    && (forall i :: 0 <= i < |results| ==> results[i] == ResolveDefense(unsealed[i], s, sqrt))
    && (forall i :: 0 <= i < |results| ==> (i in at <==> results[i].status == Intercepted))
    && (forall n :: 0 <= n < |at| ==> at[n] < |results|)
  }

  lemma OwnedWider(results: seq<Result>, unsealed: seq<Attempt>, at: seq<nat>, s: Scene, sqrt: SquareRoot, a: Attempt)
    requires IsSquareRoot(sqrt) && Owned(results, unsealed, at, s, sqrt)
    ensures var r := ResolveDefense(a, s, sqrt);
            Owned(results + [r], unsealed + [a], if r.status == Intercepted then at + [|results|] else at, s, sqrt)
    ensures |results| == |unsealed|
  {
  }

  lemma NothingJudged(s: Scene)
    ensures Hits([], s) == [] && Opened([]) == [] && Points([], [], [])
    ensures forall sqrt :: IsSquareRoot(sqrt) ==> Owned([], [], [], s, sqrt)
  {
  }

  lemma OneMore(xs: seq<Attempt>, a: Attempt, s: Scene, sqrt: SquareRoot)
    requires IsSquareRoot(sqrt)
    ensures Opened(xs + [a]) == if a.point.Some? then Opened(xs) + [a] else Opened(xs)
    ensures Hits(xs + [a], s) == if ResolveDefense(a, s, sqrt).status == Intercepted then Hits(xs, s) + [a] else Hits(xs, s)
    ensures a.point.None? ==> ResolveDefense(a, s, sqrt).status != Intercepted
  {
    assert (xs + [a])[..|xs + [a]| - 1] == xs;
  }

  /** The least arrival block among the interceptors. */
  method LeastArrival(results: seq<Result>, interceptors: seq<nat>, ghost hits: seq<Attempt>) returns (killBlock: int)
    requires interceptors != [] && |hits| == |interceptors|
    requires forall n :: 0 <= n < |hits| ==> interceptors[n] < |results|
                                             && results[interceptors[n]].arrivalBlock == Some(hits[n].submittedAtBlock)
    ensures killBlock == EarliestBlock(hits)
  {
    killBlock := results[interceptors[0]].arrivalBlock.value;
    for n := 1 to |interceptors|
      invariant killBlock == EarliestBlock(hits[..n])
    {
      EarliestStep(hits, n);
      var arrival := results[interceptors[n]].arrivalBlock.value;
      killBlock := if arrival < killBlock then arrival else killBlock;
    }
    assert hits[..|interceptors|] == hits;
  }

  lemma EarliestStep(hits: seq<Attempt>, n: nat)
    requires 1 <= n < |hits|
    ensures var b := EarliestBlock(hits[..n]);
            EarliestBlock(hits[..n + 1]) == if hits[n].submittedAtBlock < b then hits[n].submittedAtBlock else b
  {
    assert hits[..n + 1][..n] == hits[..n];
  }

  /** Marks the kills, files the other interceptors as already down, and lists the winners. */
  method MarkKills(own: seq<Result>, interceptors: seq<nat>, killBlock: int, ghost hits: seq<Attempt>)
    returns (results: seq<Result>, winners: seq<Address>)
    requires |hits| == |interceptors|
    requires forall n :: 0 <= n < |hits| ==> interceptors[n] < |own|
                                             && own[interceptors[n]].arrivalBlock == Some(hits[n].submittedAtBlock)
                                             && own[interceptors[n]].participant == hits[n].participant
    requires forall x, y :: 0 <= x < y < |interceptors| ==> interceptors[x] < interceptors[y]
    ensures winners == ParticipantsAt(hits, killBlock)
    ensures |results| == |own|
    ensures forall i :: 0 <= i < |own| ==> results[i] == if i in interceptors then Marked(own[i], killBlock) else own[i]
  {
    results, winners := own, [];
    for n := 0 to |interceptors|
      invariant |results| == |own|
      invariant winners == ParticipantsAt(hits[..n], killBlock)
      invariant forall i :: 0 <= i < |own| ==>
        results[i] == if i in interceptors[..n] then Marked(own[i], killBlock) else own[i]
    {
      assert hits[..n + 1][..n] == hits[..n];
      assert interceptors[..n + 1] == interceptors[..n] + [interceptors[n]];
      var i := interceptors[n];
      assert results[i] == own[i];
      if results[i].arrivalBlock.value == killBlock {
        winners := winners + [results[i].participant];
        results := results[i := results[i].(isWinner := true)];
      } else {
        results := results[i := results[i].(reason := DownAlready)];
      }
    }
    assert hits[..|interceptors|] == hits && interceptors[..|interceptors|] == interceptors;
  }

  function Marked(own: Result, killBlock: int): Result {
    if own.arrivalBlock == Some(killBlock) then own.(isWinner := true) else own.(reason := DownAlready)
  }

  /** The first winning record; what the outcome shows. */
  method FirstKill(results: seq<Result>, interceptors: seq<nat>) returns (shown: Result)
    requires forall n :: 0 <= n < |interceptors| ==> interceptors[n] < |results|
    requires exists n :: 0 <= n < |interceptors| && results[interceptors[n]].isWinner
    ensures shown in results && shown.isWinner
  {
    var n := 0;
    while !results[interceptors[n]].isWinner
      invariant n < |interceptors|
      invariant forall m :: 0 <= m < n ==> !results[interceptors[m]].isWinner
      decreases |interceptors| - n
    {
      n := n + 1;
    }
    shown := results[interceptors[n]];
  }

  /** Against a stopped attack the final record is the marked one, and a kill's record shows the outcome. */
  lemma JudgedIsMarked(a: Attempt, s: Scene, sqrt: SquareRoot, r: Resolution)
    requires IsSquareRoot(sqrt) && r.Stopped?
    ensures var own := ResolveDefense(a, s, sqrt);
            && Judged(a, s, sqrt, r) == (if own.status == Intercepted then Marked(own, r.block) else own)
            && (own.isWinner == false)
            && (own.status == Intercepted ==>
                  InFlight(s.flight, a.submittedAtBlock) && own.arrivalBlock == Some(a.submittedAtBlock)
                  && own.participant == a.participant
                  && own.interceptionProgress == Some(ProgressAt(s.flight, a.submittedAtBlock))
                  && own.interceptionPoint == Some(PositionAtProgress(s.path, own.interceptionProgress.value)))
            && (IsHit(a, s) ==> own.status == Intercepted)
  {
  }

  lemma StoppedShape(attempts: seq<Attempt>, s: Scene)
    requires Hits(attempts, s) != []
    ensures var hits := Hits(attempts, s);
            var kill := EarliestBlock(hits);
            InFlight(s.flight, kill)
            && ResolveAttack(attempts, s)
               == Stopped(PositionAtProgress(s.path, ProgressAt(s.flight, kill)), ProgressAt(s.flight, kill), kill,
                          ParticipantsAt(hits, kill))
  {
  }

  /**
   * The resolution as the protocol runs it: judge the opened attempts, collect the interceptors, take
   * the least block, mark the kills and file the other hits as already down.
   */
  method ResolveAttackDefenses(attempts: seq<Attempt>, s: Scene, sqrt: SquareRoot)
    returns (resolution: Resolution, results: seq<Result>)
    requires IsSquareRoot(sqrt)
    ensures resolution == ResolveAttack(attempts, s)
    ensures |results| == |Opened(attempts)|
    ensures forall i :: 0 <= i < |results| ==> results[i] == Judged(Opened(attempts)[i], s, sqrt, resolution)
  {
    var interceptors;
    results, interceptors := JudgeEach(attempts, s, sqrt);
    ghost var unsealed, hits, own := Opened(attempts), Hits(attempts, s), results;
    if interceptors == [] {
      return NotStopped, results;
    }
    StoppedShape(attempts, s);
    ghost var final := ResolveAttack(attempts, s);
    hide *;
    forall i | 0 <= i < |own|
      ensures Judged(unsealed[i], s, sqrt, final) == if i in interceptors then Marked(own[i], final.block) else own[i]
      ensures !own[i].isWinner && (i in interceptors ==> Agrees(own[i], unsealed[i], final))
    {
      assert own[i] == ResolveDefense(unsealed[i], s, sqrt);
      JudgedIsMarked(unsealed[i], s, sqrt, final);
      AgreesWith(own[i], unsealed[i], s, final);
    }
    PointsFacts(unsealed, interceptors, hits);
    resolution, results := RankInterceptors(results, interceptors, unsealed, hits, final);
  }

  /** An interceptor's record carries its attempt's block and seat, and at the kill block the published point. */
  ghost predicate Agrees(own: Result, a: Attempt, final: Resolution) {
    && final.Stopped?
    && own.arrivalBlock == Some(a.submittedAtBlock) && own.participant == a.participant
    && (a.submittedAtBlock == final.block ==>
          own.interceptionPoint == Some(final.point) && own.interceptionProgress == Some(final.progress))
  }

  lemma AgreesWith(own: Result, a: Attempt, s: Scene, final: Resolution)
    requires final.Stopped? && InFlight(s.flight, final.block)
    requires final.progress == ProgressAt(s.flight, final.block)
    requires final.point == PositionAtProgress(s.path, final.progress)
    requires own.status == Intercepted ==>
               InFlight(s.flight, a.submittedAtBlock) && own.arrivalBlock == Some(a.submittedAtBlock)
               && own.participant == a.participant
               && own.interceptionProgress == Some(ProgressAt(s.flight, a.submittedAtBlock))
               && own.interceptionPoint == Some(PositionAtProgress(s.path, own.interceptionProgress.value))
    ensures own.status == Intercepted ==> Agrees(own, a, final)
  {
  }

  /** The ranking half: the least block among the interceptors, the kills marked, the first of them shown. */
  method RankInterceptors(own: seq<Result>, interceptors: seq<nat>, ghost unsealed: seq<Attempt>,
                          ghost hits: seq<Attempt>, ghost final: Resolution)
    returns (resolution: Resolution, results: seq<Result>)
    requires |own| == |unsealed| && Points(unsealed, interceptors, hits) && hits != []
    requires final.Stopped? && final.block == EarliestBlock(hits) && final.winners == ParticipantsAt(hits, final.block)
    requires forall i :: 0 <= i < |own| ==> !own[i].isWinner && (i in interceptors ==> Agrees(own[i], unsealed[i], final))
    ensures resolution == final
    ensures |results| == |own|
    ensures forall i :: 0 <= i < |own| ==> results[i] == if i in interceptors then Marked(own[i], final.block) else own[i]
  {
    PointsFacts(unsealed, interceptors, hits);
    var killBlock := LeastArrival(own, interceptors, hits);
    var winners;
    results, winners := MarkKills(own, interceptors, killBlock, hits);
    WinnersShowTheKill(own, interceptors, unsealed, hits, final, results);
    hide *;
    var shown := FirstKill(results, interceptors);
    resolution := Stopped(shown.interceptionPoint.value, shown.interceptionProgress.value, killBlock, winners);
  }

  lemma PointsFacts(unsealed: seq<Attempt>, at: seq<nat>, hits: seq<Attempt>)
    requires Points(unsealed, at, hits)
    ensures |at| == |hits|
    ensures forall n :: 0 <= n < |at| ==> at[n] in at && at[n] < |unsealed| && unsealed[at[n]] == hits[n]
    ensures forall x, y :: 0 <= x < y < |at| ==> at[x] < at[y]
  {
  }

  lemma WinnersShowTheKill(own: seq<Result>, interceptors: seq<nat>, unsealed: seq<Attempt>, hits: seq<Attempt>,
                           final: Resolution, results: seq<Result>)
    requires |own| == |unsealed| == |results| && Points(unsealed, interceptors, hits)
    requires final.Stopped? && exists h :: h in hits && h.submittedAtBlock == final.block
    requires forall i :: 0 <= i < |own| ==> !own[i].isWinner && (i in interceptors ==> Agrees(own[i], unsealed[i], final))
    requires forall i :: 0 <= i < |own| ==> results[i] == if i in interceptors then Marked(own[i], final.block) else own[i]
    ensures exists n :: 0 <= n < |interceptors| && results[interceptors[n]].isWinner
    ensures forall r :: r in results && r.isWinner ==>
              r.interceptionPoint == Some(final.point) && r.interceptionProgress == Some(final.progress)
  {
    var n :| 0 <= n < |hits| && hits[n].submittedAtBlock == final.block;
    assert results[interceptors[n]].isWinner;
  }
}
