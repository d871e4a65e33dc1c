/**
 pkg/tail/ratelimiter/leakybucket.go: a bucket whose fill level is brought up to date only when somebody pours.
 Times and durations are nanoseconds; the fill level is a real number.
 */
module LeakyBucket {

  datatype Bucket = Bucket(size: nat, fill: real, leakInterval: int, lastUpdate: int)

  /** What leaks out in a time. */
  function Leak(elapsed: int, leakInterval: int): real
    requires leakInterval > 0
  {
    elapsed as real / leakInterval as real
  }

  function Fresh(size: nat, leakInterval: int, now: int): Bucket { Bucket(size, 0.0, leakInterval, now) }

  function UpdateStep(b: Bucket, now: int): Bucket
    requires b.leakInterval > 0
  {
    var rest := b.fill - Leak(now - b.lastUpdate, b.leakInterval);
    b.(fill := if b.fill > 0.0 then (if rest < 0.0 then 0.0 else rest) else b.fill, lastUpdate := now)
  }

  predicate Fits(b: Bucket, now: int, amount: nat)
    requires b.leakInterval > 0
  {
    UpdateStep(b, now).fill + amount as real <= b.size as real
  }

  function PourStep(b: Bucket, now: int, amount: nat): Bucket
    requires b.leakInterval > 0
  {
    var u := UpdateStep(b, now);
    if Fits(b, now, amount) then u.(fill := u.fill + amount as real) else u
  }

  /** What does not fit a time.Duration, an int64 of nanoseconds. */
  const DURATION_LIMIT := 0x8000_0000_0000_0000

  /**
   Conversion of a float that is not negative to a Duration: truncated to whole nanoseconds, and the least int64 when it
   does not fit, as amd64 has it; the language leaves that case to the implementation.
   */
  function ToDuration(x: real): int {
    if x < DURATION_LIMIT as real then x.Floor else -DURATION_LIMIT
  }

  function DrainedAt(b: Bucket): int { b.lastUpdate + ToDuration(b.fill * b.leakInterval as real) }

  datatype Poured = Poured(at: int, amount: nat)

  function Total(pours: seq<Poured>): nat {
    if pours == [] then 0 else pours[0].amount + Total(pours[1..])
  }

  predicate InOrder(pours: seq<Poured>) {
    forall i, j | 0 <= i < j < |pours| :: pours[i].at <= pours[j].at
  }

  predicate SuffixFits(accepted: seq<Poured>, i: nat, size: nat, leakInterval: int, now: int, amount: nat)
    requires leakInterval > 0 && i < |accepted|
  {
    (Total(accepted[i..]) + amount) as real <= size as real + Leak(now - accepted[i].at, leakInterval)
  }

  /**
   The specification, which knows no fill level: taken together with the last pours, as many of them as one likes, the
   amount is at most the size plus what leaks out from the first of these on.
   */
  predicate Admissible(accepted: seq<Poured>, size: nat, leakInterval: int, now: int, amount: nat)
    requires leakInterval > 0
  {
    && amount <= size
    && forall i | 0 <= i < |accepted| :: SuffixFits(accepted, i, size, leakInterval, now, amount)
  }

  /** The level that the accepted pours leave behind at a time. */
  function Level(accepted: seq<Poured>, leakInterval: int, now: int): (l: real)
    requires leakInterval > 0
    ensures l >= 0.0
    decreases |accepted|
  {
    if accepted == [] then 0.0
    else
      var last := accepted[|accepted| - 1];
      var rest := Level(accepted[..|accepted| - 1], leakInterval, last.at) + last.amount as real
                  - Leak(now - last.at, leakInterval);
      if rest < 0.0 then 0.0 else rest
  }

  lemma LeakAdds(a: int, b: int, leakInterval: int)
    requires leakInterval > 0
    ensures Leak(a, leakInterval) + Leak(b, leakInterval) == Leak(a + b, leakInterval)
  {
  }

  lemma LeakGrows(a: int, b: int, leakInterval: int)
    requires leakInterval > 0 && a <= b
    ensures Leak(a, leakInterval) <= Leak(b, leakInterval)
    ensures a == 0 ==> Leak(a, leakInterval) == 0.0
  {
    var l := leakInterval as real;
    assert b as real / l - a as real / l == (b - a) as real / l >= 0.0;
  }

  lemma {:induction false} TotalSnoc(pours: seq<Poured>, p: Poured)
    ensures Total(pours + [p]) == Total(pours) + p.amount
  {
    if pours == [] {
      assert [p][1..] == [];
    } else {
      TotalSnoc(pours[1..], p);
      assert (pours + [p])[1..] == pours[1..] + [p];
    }
  }

  /** What pours from the i-th on have brought, less what has leaked out since, is at most x. */
  predicate SuffixBelow(accepted: seq<Poured>, i: nat, leakInterval: int, now: int, x: real)
    requires leakInterval > 0 && i < |accepted|
  {
    Total(accepted[i..]) as real - Leak(now - accepted[i].at, leakInterval) <= x
  }

  predicate SuffixesBelow(accepted: seq<Poured>, leakInterval: int, now: int, x: real)
    requires leakInterval > 0
  {
    forall i | 0 <= i < |accepted| :: SuffixBelow(accepted, i, leakInterval, now, x)
  }

  lemma SuffixSnoc(pours: seq<Poured>, i: nat, p: Poured, leakInterval: int, now: int, x: real)
    requires leakInterval > 0 && i < |pours|
    ensures SuffixBelow(pours + [p], i, leakInterval, now, x) <==>
            SuffixBelow(pours, i, leakInterval, p.at, x + Leak(now - p.at, leakInterval) - p.amount as real)
  {
    assert (pours + [p])[i..] == pours[i..] + [p];
    TotalSnoc(pours[i..], p);
    LeakAdds(now - p.at, p.at - pours[i].at, leakInterval);
  }

  lemma LastSuffix(pours: seq<Poured>, p: Poured, leakInterval: int, now: int, x: real)
    requires leakInterval > 0
    ensures SuffixBelow(pours + [p], |pours|, leakInterval, now, x) <==>
            p.amount as real - Leak(now - p.at, leakInterval) <= x
  {
    assert (pours + [p])[|pours|..] == [p];
    assert Total([p]) == p.amount + Total([p][1..]);
  }

  lemma SuffixesSnoc(pours: seq<Poured>, p: Poured, leakInterval: int, now: int, x: real)
    requires leakInterval > 0
    ensures SuffixesBelow(pours + [p], leakInterval, now, x) <==>
      && SuffixesBelow(pours, leakInterval, p.at, x + Leak(now - p.at, leakInterval) - p.amount as real)
      && p.amount as real - Leak(now - p.at, leakInterval) <= x
  {
    var all := pours + [p];
    var y := x + Leak(now - p.at, leakInterval) - p.amount as real;
    LastSuffix(pours, p, leakInterval, now, x);
    if SuffixesBelow(all, leakInterval, now, x) {
      assert SuffixBelow(all, |pours|, leakInterval, now, x);
      forall i: nat | i < |pours| ensures SuffixBelow(pours, i, leakInterval, p.at, y) {
        assert SuffixBelow(all, i, leakInterval, now, x);
        SuffixSnoc(pours, i, p, leakInterval, now, x);
      }
    }
    if SuffixesBelow(pours, leakInterval, p.at, y) && SuffixBelow(all, |pours|, leakInterval, now, x) {
      forall i: nat | i < |all| ensures SuffixBelow(all, i, leakInterval, now, x) {
        if i < |pours| {
          assert SuffixBelow(pours, i, leakInterval, p.at, y);
          SuffixSnoc(pours, i, p, leakInterval, now, x);
        }
      }
    }
  }

  lemma {:induction false} LevelIsSuffixMaximum(accepted: seq<Poured>, leakInterval: int, now: int, x: real)
    requires leakInterval > 0 && x >= 0.0
    ensures Level(accepted, leakInterval, now) <= x <==> SuffixesBelow(accepted, leakInterval, now, x)
    decreases |accepted|
  {
    if accepted != [] {
      var n := |accepted| - 1;
      var before, p := accepted[..n], accepted[n];
      var y := x + Leak(now - p.at, leakInterval) - p.amount as real;
      assert accepted == before + [p];
      SuffixesSnoc(before, p, leakInterval, now, x);
      if y >= 0.0 {
        LevelIsSuffixMaximum(before, leakInterval, p.at, y);
      }
    }
  }

  /** The bucket's fill level is the level its accepted pours have left behind. */
  predicate Reflects(b: Bucket, accepted: seq<Poured>) {
    && b.leakInterval > 0
    && InOrder(accepted)
    && (accepted != [] ==> accepted[|accepted| - 1].at <= b.lastUpdate)
    && b.fill == Level(accepted, b.leakInterval, b.lastUpdate)
    && b.fill <= b.size as real
  }

  /** Bringing the level up to date in two steps or in one is the same. */
  lemma LevelLater(accepted: seq<Poured>, leakInterval: int, at: int, now: int)
    requires leakInterval > 0 && at <= now && (accepted != [] ==> accepted[|accepted| - 1].at <= at)
    ensures var rest := Level(accepted, leakInterval, at) - Leak(now - at, leakInterval);
            Level(accepted, leakInterval, now) == if rest < 0.0 then 0.0 else rest
  {
    LeakGrows(0, now - at, leakInterval);
    if accepted != [] {
      LeakAdds(at - accepted[|accepted| - 1].at, now - at, leakInterval);
    }
  }

  lemma UpdateReflects(b: Bucket, accepted: seq<Poured>, now: int)
    requires Reflects(b, accepted) && b.lastUpdate <= now
    ensures Reflects(UpdateStep(b, now), accepted)
  {
    LevelLater(accepted, b.leakInterval, b.lastUpdate, now);
    LeakGrows(0, now - b.lastUpdate, b.leakInterval);
  }

  /** A pour fits exactly when the specification admits it. */
  lemma FitsIffAdmissible(b: Bucket, accepted: seq<Poured>, now: int, amount: nat)
    requires Reflects(b, accepted) && b.lastUpdate <= now
    ensures Fits(b, now, amount) <==> Admissible(accepted, b.size, b.leakInterval, now, amount)
  {
    UpdateReflects(b, accepted, now);
    if amount <= b.size {
      var x := (b.size - amount) as real;
      LevelIsSuffixMaximum(accepted, b.leakInterval, now, x);
      BelowIffFits(accepted, b.size, b.leakInterval, now, amount);
    }
  }

  lemma BelowIffFits(accepted: seq<Poured>, size: nat, leakInterval: int, now: int, amount: nat)
    requires leakInterval > 0 && amount <= size
    ensures SuffixesBelow(accepted, leakInterval, now, (size - amount) as real) <==>
            Admissible(accepted, size, leakInterval, now, amount)
  {
    var x := (size - amount) as real;
    assert forall i: nat | i < |accepted| ::
        SuffixBelow(accepted, i, leakInterval, now, x) <==> SuffixFits(accepted, i, size, leakInterval, now, amount);
  }

  lemma LevelSnoc(accepted: seq<Poured>, p: Poured, leakInterval: int)
    requires leakInterval > 0
    ensures Level(accepted + [p], leakInterval, p.at) == Level(accepted, leakInterval, p.at) + p.amount as real
  {
    var more := accepted + [p];
    assert more[..|more| - 1] == accepted && more[|more| - 1] == p;
    LeakGrows(0, 0, leakInterval);
  }

  lemma PourReflects(b: Bucket, accepted: seq<Poured>, now: int, amount: nat)
    requires Reflects(b, accepted) && b.lastUpdate <= now
    ensures Reflects(PourStep(b, now, amount),
                     if Fits(b, now, amount) then accepted + [Poured(now, amount)] else accepted)
  {
    UpdateReflects(b, accepted, now);
    LevelSnoc(accepted, Poured(now, amount), b.leakInterval);
  }

  /** One attempt after the other, at times that never go back. */
  predicate Clock(attempts: seq<Poured>, from: int) {
    attempts == [] || (from <= attempts[0].at && Clock(attempts[1..], attempts[0].at))
  }

  function Answers(b: Bucket, attempts: seq<Poured>): (answers: seq<bool>)
    requires b.leakInterval > 0
    ensures |answers| == |attempts|
    decreases |attempts|
  {
    if attempts == [] then []
    else
      var p := attempts[0];
      [Fits(b, p.at, p.amount)] + Answers(PourStep(b, p.at, p.amount), attempts[1..])
  }

  /** The specification's answers: each attempt is held against the accepted ones before it, and nothing else. */
  function AdmittedAnswers(accepted: seq<Poured>, size: nat, leakInterval: int, attempts: seq<Poured>): seq<bool>
    requires leakInterval > 0
    decreases |attempts|
  {
    if attempts == [] then []
    else
      var p := attempts[0];
      var ok := Admissible(accepted, size, leakInterval, p.at, p.amount);
      [ok] + AdmittedAnswers(if ok then accepted + [p] else accepted, size, leakInterval, attempts[1..])
  }

  lemma {:induction false} AnswersFromLevel(b: Bucket, accepted: seq<Poured>, attempts: seq<Poured>)
    requires Reflects(b, accepted) && Clock(attempts, b.lastUpdate)
    ensures Answers(b, attempts) == AdmittedAnswers(accepted, b.size, b.leakInterval, attempts)
    decreases |attempts|
  {
    if attempts != [] {
      var p := attempts[0];
      FitsIffAdmissible(b, accepted, p.at, p.amount);
      PourReflects(b, accepted, p.at, p.amount);
      var accepted' := if Fits(b, p.at, p.amount) then accepted + [Poured(p.at, p.amount)] else accepted;
      AnswersFromLevel(PourStep(b, p.at, p.amount), accepted', attempts[1..]);
    }
  }

  /**
   Pour is exact. A bucket that starts empty answers every sequence of attempts as the specification does: accepted if
   and only if no suffix of the accepted pours, this one included, exceeds the size by more than has leaked since.
   */
  lemma PourIsExact(size: nat, leakInterval: int, now: int, attempts: seq<Poured>)
    requires leakInterval > 0 && Clock(attempts, now)
    ensures Answers(Fresh(size, leakInterval, now), attempts) == AdmittedAnswers([], size, leakInterval, attempts)
  {
    AnswersFromLevel(Fresh(size, leakInterval, now), [], attempts);
  }

  /** A refused pour never changes a later answer. */
  lemma RefusedPoursLeaveNoTrace(b: Bucket, accepted: seq<Poured>, refused: Poured, later: seq<Poured>)
    requires Reflects(b, accepted) && b.lastUpdate <= refused.at && Clock(later, refused.at)
    requires !Fits(b, refused.at, refused.amount)
    ensures Answers(PourStep(b, refused.at, refused.amount), later) == Answers(b, later)
  {
    PourReflects(b, accepted, refused.at, refused.amount);
    AnswersFromLevel(PourStep(b, refused.at, refused.amount), accepted, later);
    ClockFromEarlier(later, refused.at, b.lastUpdate);
    AnswersFromLevel(b, accepted, later);
  }

  lemma ClockFromEarlier(attempts: seq<Poured>, from: int, earlier: int)
    requires Clock(attempts, from) && earlier <= from
    ensures Clock(attempts, earlier)
  {
  }

  function AcceptedOf(b: Bucket, attempts: seq<Poured>): seq<Poured>
    requires b.leakInterval > 0
    decreases |attempts|
  {
    if attempts == [] then []
    else
      var p := attempts[0];
      (if Fits(b, p.at, p.amount) then [p] else []) + AcceptedOf(PourStep(b, p.at, p.amount), attempts[1..])
  }

  /** In no window from the i-th to the j-th accepted pour was more accepted than the size plus what leaks in it. */
  predicate WindowFits(accepted: seq<Poured>, size: nat, leakInterval: int, i: nat, j: nat)
    requires leakInterval > 0 && i <= j < |accepted|
  {
    Total(accepted[i..j + 1]) as real <= size as real + Leak(accepted[j].at - accepted[i].at, leakInterval)
  }

  predicate WindowsFit(accepted: seq<Poured>, size: nat, leakInterval: int)
    requires leakInterval > 0
  {
    forall i, j | 0 <= i <= j < |accepted| :: WindowFits(accepted, size, leakInterval, i, j)
  }

  lemma AdmissibleKeepsWindows(accepted: seq<Poured>, size: nat, leakInterval: int, p: Poured)
    requires leakInterval > 0 && WindowsFit(accepted, size, leakInterval)
    requires Admissible(accepted, size, leakInterval, p.at, p.amount)
    ensures WindowsFit(accepted + [p], size, leakInterval)
  {
    var more := accepted + [p];
    forall i: nat, j: nat | i <= j < |more| ensures WindowFits(more, size, leakInterval, i, j) {
      if j < |accepted| {
        assert WindowFits(accepted, size, leakInterval, i, j);
        assert more[i..j + 1] == accepted[i..j + 1];
      } else {
        assert more[i..j + 1] == accepted[i..] + [p];
        TotalSnoc(accepted[i..], p);
        if i < |accepted| {
          assert SuffixFits(accepted, i, size, leakInterval, p.at, p.amount);
        } else {
          assert accepted[i..] == [];
          LeakGrows(0, 0, leakInterval);
        }
      }
    }
  }

  lemma {:induction false} AcceptedKeepsWindows(b: Bucket, accepted: seq<Poured>, attempts: seq<Poured>)
    requires Reflects(b, accepted) && Clock(attempts, b.lastUpdate)
    requires WindowsFit(accepted, b.size, b.leakInterval)
    ensures WindowsFit(accepted + AcceptedOf(b, attempts), b.size, b.leakInterval)
    decreases |attempts|
  {
    hide Level, Total, Leak, Fits, Admissible, WindowsFit;
    if attempts == [] {
      assert accepted + [] == accepted;
    } else {
      var p := attempts[0];
      var ok := Fits(b, p.at, p.amount);
      var b' := PourStep(b, p.at, p.amount);
      var accepted' := accepted + if ok then [p] else [];
      FitsIffAdmissible(b, accepted, p.at, p.amount);
      PourReflects(b, accepted, p.at, p.amount);
      assert p == Poured(p.at, p.amount);
      assert !ok ==> accepted' == accepted;
      if ok {
        AdmissibleKeepsWindows(accepted, b.size, b.leakInterval, p);
      }
      AcceptedKeepsWindows(b', accepted', attempts[1..]);
      assert accepted + AcceptedOf(b, attempts) == accepted' + AcceptedOf(b', attempts[1..]);
    }
  }

  /** The rate limit itself: whatever is attempted, every window of accepted pours fits. */
  lemma NoWindowOverflows(size: nat, leakInterval: int, now: int, attempts: seq<Poured>)
    requires leakInterval > 0 && Clock(attempts, now)
    ensures WindowsFit(AcceptedOf(Fresh(size, leakInterval, now), attempts), size, leakInterval)
  {
    var b := Fresh(size, leakInterval, now);
    AcceptedKeepsWindows(b, [], attempts);
    assert [] + AcceptedOf(b, attempts) == AcceptedOf(b, attempts);
  }

  /** Empty by now, if nobody pours. */
  predicate Drained(b: Bucket, now: int)
    requires b.leakInterval > 0
  {
    b.fill <= Leak(now - b.lastUpdate, b.leakInterval)
  }

  /** A drained bucket answers every later sequence of attempts as a fresh one. */
  lemma DrainedIsFresh(b: Bucket, now: int, attempts: seq<Poured>)
    requires b.leakInterval > 0 && b.fill >= 0.0 && Drained(b, now) && Clock(attempts, now)
    ensures Answers(b, attempts) == Answers(Fresh(b.size, b.leakInterval, now), attempts)
  {
    if attempts != [] {
      var at := attempts[0].at;
      LeakGrows(now - b.lastUpdate, at - b.lastUpdate, b.leakInterval);
      assert UpdateStep(b, at) == UpdateStep(Fresh(b.size, b.leakInterval, now), at);
    }
  }

  /** Unix truncates a time to whole seconds. */
  const SECOND := 1_000_000_000

  function Unix(t: int): int { t / SECOND }

  /** What GarbageCollect looks for, and why the truncations on the way do no harm as long as the durations fit. */
  lemma CollectedIsDrained(b: Bucket, now: int)
    requires b.leakInterval > 0 && b.fill <= b.size as real && b.size * b.leakInterval < DURATION_LIMIT
    requires Unix(DrainedAt(b)) < Unix(now)
    ensures Drained(b, now)
  {
    var l := b.leakInterval as real;
    DurationFits(b.fill, b.size, b.leakInterval);
    assert DrainedAt(b) + 1 <= now;
    assert b.fill * l < (now - b.lastUpdate) as real;
    MultiplyBack(b.fill, now - b.lastUpdate, b.leakInterval);
  }

  lemma DurationFits(fill: real, size: nat, leakInterval: int)
    requires leakInterval > 0 && fill <= size as real && size * leakInterval < DURATION_LIMIT
    ensures fill * leakInterval as real < DURATION_LIMIT as real
  {
    assert fill * leakInterval as real <= size as real * leakInterval as real;
    assert size as real * leakInterval as real == (size * leakInterval) as real;
  }

  lemma MultiplyBack(fill: real, elapsed: int, leakInterval: int)
    requires leakInterval > 0 && fill * leakInterval as real <= elapsed as real
    ensures fill <= Leak(elapsed, leakInterval)
  {
    var l := leakInterval as real;
    if fill > elapsed as real / l {
      assert fill * l > elapsed as real / l * l;
      assert elapsed as real / l * l == elapsed as real;
    }
  }

  class LeakyBucket {
    const size: nat
    const leakInterval: int
    var fill: real
    var lastUpdate: int
    ghost var accepted: seq<Poured>

    ghost function State(): Bucket
      reads this
    {
      Bucket(size, fill, leakInterval, lastUpdate)
    }

    ghost predicate Valid()
      reads this
    {
      Reflects(State(), accepted)
    }

    constructor (size: nat, leakInterval: int, now: int)
      requires leakInterval > 0
      ensures Valid() && accepted == [] && State() == Fresh(size, leakInterval, now)
    {
      this.size, this.leakInterval := size, leakInterval;
      fill, lastUpdate, accepted := 0.0, now, [];
    }

    method UpdateFill(now: int)
      requires leakInterval > 0
      modifies this`fill, this`lastUpdate
      ensures State() == UpdateStep(old(State()), now)
    {
      if fill > 0.0 {
        var elapsed := now - lastUpdate;
        fill := fill - elapsed as real / leakInterval as real;
        if fill < 0.0 {
          fill := 0.0;
        }
      }
      lastUpdate := now;
    }

    /** The answer is the specification's, and the accepted pours are remembered only by the level. */
    method Pour(now: int, amount: nat) returns (ok: bool)
      requires Valid() && lastUpdate <= now
      modifies this
      ensures Valid() && lastUpdate == now
      ensures ok <==> Admissible(old(accepted), size, leakInterval, now, amount)
      ensures accepted == if ok then old(accepted) + [Poured(now, amount)] else old(accepted)
      ensures State() == PourStep(old(State()), now, amount)
    {
      assert leakInterval > 0;
      hide Reflects, Admissible, UpdateStep;
      FitsIffAdmissible(State(), accepted, now, amount);
      PourReflects(State(), accepted, now, amount);
      UpdateFill(now);
      var newfill := fill + amount as real;
      if newfill > size as real {
        return false;
      }
      fill := newfill;
      accepted := accepted + [Poured(now, amount)];
      return true;
    }
  }
}
