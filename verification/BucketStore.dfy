/** pkg/tail/ratelimiter/memory.go: buckets by key, the drained ones collected now and then. */
module BucketStore {
  import opened LeakyBucket
  import opened Options

  type Key = string

  const GC_SIZE := 100
  const GC_PERIOD := 60 * SECOND

  datatype Store = Store(buckets: map<Key, Bucket>, lastCollected: int)

  predicate Collectable(b: Bucket, now: int) { Unix(DrainedAt(b)) < Unix(now) }

  function Collected(buckets: map<Key, Bucket>, now: int): map<Key, Bucket> {
    map k | k in buckets && !Collectable(buckets[k], now) :: buckets[k]
  }

  function CollectStep(m: Store, now: int): Store {
    if Unix(now) >= Unix(m.lastCollected + GC_PERIOD) then Store(Collected(m.buckets, now), now) else m
  }

  function SetStep(m: Store, key: Key, b: Bucket, now: int): Store {
    var m := if |m.buckets| > GC_SIZE then CollectStep(m, now) else m;
    m.(buckets := m.buckets[key := b])
  }

  function Get(m: Store, key: Key): Option<Bucket> {
    if key in m.buckets then Some(m.buckets[key]) else None
  }

  class Memory {
    var store: map<Key, Bucket>
    var lastCollected: int

    ghost function State(): Store
      reads this
    {
      Store(store, lastCollected)
    }

    constructor (now: int)
      ensures State() == Store(map[], now)
    {
      store, lastCollected := map[], now;
    }

    /** A missing key is the error "miss". */
    method GetBucketFor(key: Key) returns (b: Option<Bucket>)
      ensures b == Get(State(), key)
    {
      if key !in store {
        return None;
      }
      return Some(store[key]);
    }

    method SetBucketFor(key: Key, bucket: Bucket, now: int)
      modifies this
      ensures State() == SetStep(old(State()), key, bucket, now)
      ensures key in store && store[key] == bucket
      ensures |old(store)| <= 100 ==> store == old(store)[key := bucket]
      ensures |old(store)| > 100 ==>
                var m := CollectStep(old(State()), now);
                State() == m.(buckets := m.buckets[key := bucket])
    {
      if |store| > GC_SIZE {
        GarbageCollect(now);
      }
      store := store[key := bucket];
    }

    method GarbageCollect(now: int)
      modifies this
      ensures State() == CollectStep(old(State()), now)
    {
      if Unix(now) >= Unix(lastCollected + GC_PERIOD) {
        var before := store;
        var rest := store.Keys;
        while rest != {}
          invariant rest <= before.Keys
          invariant forall k | k in rest :: k in store
          invariant forall k :: k in store <==> k in before && (k in rest || !Collectable(before[k], now))
          invariant forall k | k in store :: store[k] == before[k]
          invariant lastCollected == old(lastCollected)
        {
          var key :| key in rest;
          rest := rest - {key};
          if Unix(DrainedAt(store[key])) < Unix(now) {
            store := store - {key};
          }
        }
        assert store == Collected(before, now);
        lastCollected := now;
      }
    }
  }

  /** A collection takes place from the sixtieth second after the last one on, and not before. */
  lemma OnceAMinute(m: Store, now: int)
    ensures var second := 1_000_000_000;
            if now / second < m.lastCollected / second + 60 then CollectStep(m, now) == m
            else CollectStep(m, now).lastCollected == now
  {
  }

  lemma LeaksInTime(fill: real, elapsed: int, leakInterval: int)
    requires leakInterval > 0 && fill <= Leak(elapsed, leakInterval)
    ensures fill * leakInterval as real <= elapsed as real
  {
    assert fill * leakInterval as real <= Leak(elapsed, leakInterval) * leakInterval as real;
    assert Leak(elapsed, leakInterval) * leakInterval as real == elapsed as real;
  }

  /** And it leaves no bucket behind that had drained a second before, whatever its level when it was last used. */
  lemma DrainedIsCollected(m: Store, key: Key, now: int)
    requires key in m.buckets && Unix(now) >= Unix(m.lastCollected) + 60
    requires var b := m.buckets[key];
             && b.leakInterval > 0 && 0.0 <= b.fill <= b.size as real && b.size * b.leakInterval < DURATION_LIMIT
             && b.fill <= Leak(now - SECOND - b.lastUpdate, b.leakInterval)
    ensures key !in CollectStep(m, now).buckets
  {
    var b := m.buckets[key];
    DurationFits(b.fill, b.size, b.leakInterval);
    LeaksInTime(b.fill, now - SECOND - b.lastUpdate, b.leakInterval);
    assert DrainedAt(b) <= now - SECOND;
  }

  /** One use of the limiter: the key's bucket, or a new one, is poured into and put back. */
  datatype Use = Use(key: Key, at: int, amount: nat)

  datatype Limits = Limits(size: nat, leakInterval: int)

  function BucketFor(m: Store, l: Limits, u: Use): Bucket {
    var b := Get(m, u.key);
    if b.Some? then b.value else Fresh(l.size, l.leakInterval, u.at)
  }

  /** Every bucket was made with the limits and is sound. */
  predicate Sound(b: Bucket, l: Limits) {
    && b.size == l.size && b.leakInterval == l.leakInterval > 0 && b.fill >= 0.0
  }

  /** The time in which a full bucket leaks out fits a Duration. */
  predicate DurationsFit(l: Limits) { l.size * l.leakInterval <= 9_223_372_036_854_775_807 }

  predicate StoreSound(m: Store, l: Limits) {
    l.leakInterval > 0 && forall k | k in m.buckets :: Sound(m.buckets[k], l)
  }

  predicate Granted(m: Store, l: Limits, u: Use)
    requires StoreSound(m, l)
  {
    Fits(BucketFor(m, l, u), u.at, u.amount)
  }

  function UseStep(m: Store, l: Limits, u: Use): (m': Store)
    requires StoreSound(m, l)
    ensures StoreSound(m', l)
  {
    SetStep(m, u.key, PourStep(BucketFor(m, l, u), u.at, u.amount), u.at)
  }

  /** The same use of a store that never forgets anything. */
  function KeepingStep(m: Store, l: Limits, u: Use): (m': Store)
    requires StoreSound(m, l)
    ensures StoreSound(m', l)
  {
    m.(buckets := m.buckets[u.key := PourStep(BucketFor(m, l, u), u.at, u.amount)])
  }

  function AnswersOf(m: Store, l: Limits, uses: seq<Use>): seq<bool>
    requires StoreSound(m, l)
    decreases |uses|
  {
    if uses == [] then [] else [Granted(m, l, uses[0])] + AnswersOf(UseStep(m, l, uses[0]), l, uses[1..])
  }

  function AnswersKeeping(m: Store, l: Limits, uses: seq<Use>): seq<bool>
    requires StoreSound(m, l)
    decreases |uses|
  {
    if uses == [] then [] else [Granted(m, l, uses[0])] + AnswersKeeping(KeepingStep(m, l, uses[0]), l, uses[1..])
  }

  predicate UsesInOrder(uses: seq<Use>, from: int) {
    uses == [] || (from <= uses[0].at && UsesInOrder(uses[1..], uses[0].at))
  }

  /** A bucket of the past is never overfull; only a clock that goes back could make it so. */
  predicate OfThePast(b: Bucket, now: int) { b.fill <= b.size as real && b.lastUpdate <= now }

  /** The collecting store has forgotten nothing but drained buckets. */
  predicate ForgotOnlyDrained(m: Store, keeping: Store, l: Limits, now: int)
    requires StoreSound(keeping, l)
  {
    && (forall k | k in keeping.buckets :: OfThePast(keeping.buckets[k], now))
    && (forall k | k in m.buckets :: k in keeping.buckets && m.buckets[k] == keeping.buckets[k])
    && (forall k | k in keeping.buckets && k !in m.buckets :: Drained(keeping.buckets[k], now))
  }

  lemma CollectForgetsOnlyDrained(m: Store, keeping: Store, l: Limits, now: int)
    requires DurationsFit(l) && StoreSound(m, l) && StoreSound(keeping, l) && ForgotOnlyDrained(m, keeping, l, now)
    ensures ForgotOnlyDrained(CollectStep(m, now), keeping, l, now)
  {
    forall k | k in keeping.buckets && k !in CollectStep(m, now).buckets
      ensures Drained(keeping.buckets[k], now)
    {
      if k in m.buckets {
        CollectedIsDrained(m.buckets[k], now);
      }
    }
  }

  /** A drained bucket and a new one are the same once the next pour has brought them up to date. */
  lemma DrainedPoursAsFresh(b: Bucket, l: Limits, at: int, amount: nat)
    requires Sound(b, l) && Drained(b, at)
    ensures Fits(b, at, amount) == Fits(Fresh(l.size, l.leakInterval, at), at, amount)
    ensures PourStep(b, at, amount) == PourStep(Fresh(l.size, l.leakInterval, at), at, amount)
  {
    assert UpdateStep(b, at) == UpdateStep(Fresh(l.size, l.leakInterval, at), at);
  }

  lemma DrainedStays(m: Store, keeping: Store, l: Limits, now: int, later: int)
    requires StoreSound(keeping, l) && ForgotOnlyDrained(m, keeping, l, now) && now <= later
    ensures ForgotOnlyDrained(m, keeping, l, later)
  {
    forall k | k in keeping.buckets && k !in m.buckets ensures Drained(keeping.buckets[k], later) {
      LeakGrows(now - keeping.buckets[k].lastUpdate, later - keeping.buckets[k].lastUpdate, l.leakInterval);
    }
  }

  lemma PouredIsOfThePast(b: Bucket, at: int, amount: nat)
    requires b.leakInterval > 0 && OfThePast(b, at)
    ensures OfThePast(PourStep(b, at, amount), at)
  {
    LeakGrows(0, at - b.lastUpdate, b.leakInterval);
  }

  /** Both stores pour into buckets that answer alike and become the same. */
  lemma BucketsAgree(m: Store, keeping: Store, l: Limits, u: Use)
    requires StoreSound(m, l) && StoreSound(keeping, l) && ForgotOnlyDrained(m, keeping, l, u.at)
    ensures Granted(m, l, u) == Granted(keeping, l, u)
    ensures PourStep(BucketFor(m, l, u), u.at, u.amount) == PourStep(BucketFor(keeping, l, u), u.at, u.amount)
    ensures OfThePast(BucketFor(keeping, l, u), u.at)
  {
    hide PourStep, Fits, Drained;
    if u.key in keeping.buckets && u.key !in m.buckets {
      DrainedPoursAsFresh(keeping.buckets[u.key], l, u.at, u.amount);
    }
  }

  lemma PutBoth(m: Store, keeping: Store, l: Limits, key: Key, b: Bucket, now: int)
    requires StoreSound(keeping, l) && ForgotOnlyDrained(m, keeping, l, now) && Sound(b, l) && OfThePast(b, now)
    ensures ForgotOnlyDrained(m.(buckets := m.buckets[key := b]), keeping.(buckets := keeping.buckets[key := b]), l, now)
  {
    hide Drained, OfThePast;
  }

  lemma UseAgrees(m: Store, keeping: Store, l: Limits, u: Use, now: int)
    requires DurationsFit(l) && StoreSound(m, l) && StoreSound(keeping, l)
    requires ForgotOnlyDrained(m, keeping, l, now) && now <= u.at
    ensures Granted(m, l, u) == Granted(keeping, l, u)
    ensures ForgotOnlyDrained(UseStep(m, l, u), KeepingStep(keeping, l, u), l, u.at)
  {
    hide ForgotOnlyDrained, PourStep, BucketFor, OfThePast, CollectStep, Granted;
    DrainedStays(m, keeping, l, now, u.at);
    BucketsAgree(m, keeping, l, u);
    SoundBucket(keeping, l, u);
    var b := PourStep(BucketFor(keeping, l, u), u.at, u.amount);
    PouredIsSound(BucketFor(keeping, l, u), l, u.at, u.amount);
    PouredIsOfThePast(BucketFor(keeping, l, u), u.at, u.amount);
    CollectForgetsOnlyDrained(m, keeping, l, u.at);
    PutBoth(if |m.buckets| > GC_SIZE then CollectStep(m, u.at) else m, keeping, l, u.key, b, u.at);
  }

  lemma SoundBucket(m: Store, l: Limits, u: Use)
    requires StoreSound(m, l)
    ensures Sound(BucketFor(m, l, u), l)
  {
  }

  lemma PouredIsSound(b: Bucket, l: Limits, at: int, amount: nat)
    requires Sound(b, l)
    ensures Sound(PourStep(b, at, amount), l)
  {
  }

  lemma {:induction false} RunsAgree(m: Store, keeping: Store, l: Limits, uses: seq<Use>, now: int)
    requires DurationsFit(l) && StoreSound(m, l) && StoreSound(keeping, l)
    requires ForgotOnlyDrained(m, keeping, l, now) && UsesInOrder(uses, now)
    ensures AnswersOf(m, l, uses) == AnswersKeeping(keeping, l, uses)
    decreases |uses|
  {
    if uses != [] {
      UseAgrees(m, keeping, l, uses[0], now);
      RunsAgree(UseStep(m, l, uses[0]), KeepingStep(keeping, l, uses[0]), l, uses[1..], uses[0].at);
    }
  }

  ghost predicate EvictionIsUnobservable(l: Limits, now: int)
    requires l.leakInterval > 0
  {
    forall uses :: UsesInOrder(uses, now) ==>
                     AnswersOf(Store(map[], now), l, uses) == AnswersKeeping(Store(map[], now), l, uses)
  }

  /**
   Eviction cannot be observed if and only if the time in which a full bucket leaks out fits a Duration: exactly then,
   over every sequence of uses, of any keys, a store that collects answers as one that keeps every bucket for ever.
   */
  lemma EvictionIsUnobservableIff(l: Limits, now: int)
    requires l.leakInterval > 0
    ensures EvictionIsUnobservable(l, now) <==> DurationsFit(l)
  {
    hide AnswersOf, AnswersKeeping, UsesInOrder;
    if DurationsFit(l) {
      forall uses | UsesInOrder(uses, now)
        ensures AnswersOf(Store(map[], now), l, uses) == AnswersKeeping(Store(map[], now), l, uses) {
        RunsAgree(Store(map[], now), Store(map[], now), l, uses, now);
      }
    } else {
      OverflowIsObserved(l, now);
    }
  }

  /** And each bucket that GarbageCollect deletes would then have answered everything to come like a fresh one. */
  lemma DeletedBucketsAreFresh(m: Store, l: Limits, key: Key, now: int, attempts: seq<Poured>)
    requires DurationsFit(l) && StoreSound(m, l)
    requires key in m.buckets && OfThePast(m.buckets[key], now)
    requires key !in CollectStep(m, now).buckets && Clock(attempts, now)
    ensures Answers(m.buckets[key], attempts) == Answers(Fresh(l.size, l.leakInterval, now), attempts)
  {
    CollectedIsDrained(m.buckets[key], now);
    DrainedIsFresh(m.buckets[key], now, attempts);
  }

  // Durations that do not fit: a full bucket is filled, a hundred others are made, a minute later one more triggers the
  // collection, and the full bucket is gone

  function AfterUses(m: Store, l: Limits, uses: seq<Use>): (m': Store)
    requires StoreSound(m, l)
    ensures StoreSound(m', l)
    decreases |uses|
  {
    if uses == [] then m else AfterUses(UseStep(m, l, uses[0]), l, uses[1..])
  }

  function AfterKeeping(m: Store, l: Limits, uses: seq<Use>): (m': Store)
    requires StoreSound(m, l)
    ensures StoreSound(m', l)
    decreases |uses|
  {
    if uses == [] then m else AfterKeeping(KeepingStep(m, l, uses[0]), l, uses[1..])
  }

  lemma {:induction false} LastAnswer(m: Store, l: Limits, uses: seq<Use>, u: Use)
    requires StoreSound(m, l)
    ensures |AnswersOf(m, l, uses + [u])| == |uses| + 1
    ensures AnswersOf(m, l, uses + [u])[|uses|] == Granted(AfterUses(m, l, uses), l, u)
    ensures AfterUses(m, l, uses + [u]) == UseStep(AfterUses(m, l, uses), l, u)
    decreases |uses|
  {
    hide UseStep, Granted;
    var all := uses + [u];
    if uses == [] {
      assert all == [u] && all[1..] == [];
      assert AnswersOf(UseStep(m, l, u), l, all[1..]) == [];
      assert AfterUses(UseStep(m, l, u), l, all[1..]) == UseStep(m, l, u);
    } else {
      assert all[0] == uses[0] && all[1..] == uses[1..] + [u];
      LastAnswer(UseStep(m, l, uses[0]), l, uses[1..], u);
    }
  }

  lemma {:induction false} LastAnswerKeeping(m: Store, l: Limits, uses: seq<Use>, u: Use)
    requires StoreSound(m, l)
    ensures |AnswersKeeping(m, l, uses + [u])| == |uses| + 1
    ensures AnswersKeeping(m, l, uses + [u])[|uses|] == Granted(AfterKeeping(m, l, uses), l, u)
    ensures AfterKeeping(m, l, uses + [u]) == KeepingStep(AfterKeeping(m, l, uses), l, u)
    decreases |uses|
  {
    hide KeepingStep, Granted;
    var all := uses + [u];
    if uses == [] {
      assert all == [u] && all[1..] == [];
      assert AnswersKeeping(KeepingStep(m, l, u), l, all[1..]) == [];
      assert AfterKeeping(KeepingStep(m, l, u), l, all[1..]) == KeepingStep(m, l, u);
    } else {
      assert all[0] == uses[0] && all[1..] == uses[1..] + [u];
      LastAnswerKeeping(KeepingStep(m, l, uses[0]), l, uses[1..], u);
    }
  }

  /** Keys told apart by their lengths. */
  function KeyOf(i: nat): Key { seq(i, _ => 'k') }

  function Full(l: Limits, now: int): Bucket { Bucket(l.size, l.size as real, l.leakInterval, now) }

  /** The first key's bucket is filled, then n other keys are used. */
  function Fillings(l: Limits, now: int, n: nat): seq<Use> {
    if n == 0 then [Use(KeyOf(0), now, l.size)] else Fillings(l, now, n - 1) + [Use(KeyOf(n), now, 0)]
  }

  predicate HoldsFull(m: Store, l: Limits, now: int) {
    KeyOf(0) in m.buckets && m.buckets[KeyOf(0)] == Full(l, now)
  }

  predicate Filled(m: Store, l: Limits, now: int, n: nat) {
    && m.lastCollected == now
    && HoldsFull(m, l, now)
    && |m.buckets| == n + 1
    && forall k | k in m.buckets :: |k| <= n
  }

  lemma FirstFilling(l: Limits, now: int)
    requires l.leakInterval > 0
    ensures Filled(UseStep(Store(map[], now), l, Use(KeyOf(0), now, l.size)), l, now, 0)
    ensures HoldsFull(KeepingStep(Store(map[], now), l, Use(KeyOf(0), now, l.size)), l, now)
  {
    var b := Fresh(l.size, l.leakInterval, now);
    assert Fits(b, now, l.size);
    assert PourStep(b, now, l.size) == Full(l, now);
  }

  lemma NextFilling(m: Store, l: Limits, now: int, n: nat)
    requires StoreSound(m, l) && Filled(m, l, now, n) && n < GC_SIZE
    ensures Filled(UseStep(m, l, Use(KeyOf(n + 1), now, 0)), l, now, n + 1)
  {
    hide PourStep, BucketFor;
    assert KeyOf(n + 1) !in m.buckets;
    assert |KeyOf(0)| != |KeyOf(n + 1)|;
  }

  lemma OtherKeyKeeps(m: Store, l: Limits, now: int, i: nat, at: int)
    requires StoreSound(m, l) && HoldsFull(m, l, now) && i > 0
    ensures HoldsFull(KeepingStep(m, l, Use(KeyOf(i), at, 0)), l, now)
  {
    hide PourStep, BucketFor;
    assert |KeyOf(0)| != |KeyOf(i)|;
  }

  lemma {:induction false} AfterFillings(l: Limits, now: int, n: nat)
    requires l.leakInterval > 0 && n <= GC_SIZE
    ensures Filled(AfterUses(Store(map[], now), l, Fillings(l, now, n)), l, now, n)
    ensures HoldsFull(AfterKeeping(Store(map[], now), l, Fillings(l, now, n)), l, now)
  {
    hide Filled, HoldsFull, UseStep, KeepingStep;
    var m := Store(map[], now);
    if n == 0 {
      FirstFilling(l, now);
      var u := Use(KeyOf(0), now, l.size);
      assert [] + [u] == [u];
      LastAnswer(m, l, [], u);
      LastAnswerKeeping(m, l, [], u);
    } else {
      var before, u := Fillings(l, now, n - 1), Use(KeyOf(n), now, 0);
      AfterFillings(l, now, n - 1);
      LastAnswer(m, l, before, u);
      LastAnswerKeeping(m, l, before, u);
      NextFilling(AfterUses(m, l, before), l, now, n - 1);
      OtherKeyKeeps(AfterKeeping(m, l, before), l, now, n, now);
    }
  }

  /** A full bucket whose duration overflows seems to have drained centuries ago. */
  lemma OverflowIsCollectable(l: Limits, now: int)
    requires l.leakInterval > 0 && !DurationsFit(l)
    ensures Collectable(Full(l, now), now + GC_PERIOD)
  {
    assert l.size as real * l.leakInterval as real == (l.size * l.leakInterval) as real;
  }

  lemma TriggerCollects(m: Store, l: Limits, now: int)
    requires l.leakInterval > 0 && !DurationsFit(l) && StoreSound(m, l) && Filled(m, l, now, GC_SIZE)
    ensures KeyOf(0) !in UseStep(m, l, Use(KeyOf(GC_SIZE + 1), now + GC_PERIOD, 0)).buckets
  {
    hide PourStep, BucketFor, Collectable;
    OverflowIsCollectable(l, now);
    assert |KeyOf(0)| != |KeyOf(GC_SIZE + 1)|;
  }

  /** The full bucket has not leaked out after a minute: it refuses what a fresh one grants. */
  lemma FullRefuses(l: Limits, now: int)
    requires l.leakInterval > 0 && !DurationsFit(l)
    ensures !Fits(Full(l, now), now + GC_PERIOD, l.size)
    ensures Fits(Fresh(l.size, l.leakInterval, now + GC_PERIOD), now + GC_PERIOD, l.size)
  {
    var leak := Leak(GC_PERIOD, l.leakInterval);
    assert l.size as real * l.leakInterval as real == (l.size * l.leakInterval) as real;
    assert leak * l.leakInterval as real == GC_PERIOD as real;
    assert (l.size as real - leak) * l.leakInterval as real > 0.0;
  }

  lemma LastUseDiffers(m: Store, keeping: Store, l: Limits, now: int)
    requires l.leakInterval > 0 && !DurationsFit(l) && StoreSound(m, l) && StoreSound(keeping, l)
    requires KeyOf(0) !in m.buckets && HoldsFull(keeping, l, now)
    ensures var u := Use(KeyOf(0), now + GC_PERIOD, l.size); Granted(m, l, u) && !Granted(keeping, l, u)
  {
    FullRefuses(l, now);
  }

  lemma {:induction false} FillingsInOrder(l: Limits, now: int, n: nat, more: seq<Use>)
    requires UsesInOrder(more, now)
    ensures UsesInOrder(Fillings(l, now, n) + more, now)
  {
    if n == 0 {
      assert (Fillings(l, now, n) + more)[1..] == more;
    } else {
      var u := Use(KeyOf(n), now, 0);
      assert ([u] + more)[1..] == more;
      FillingsInOrder(l, now, n - 1, [u] + more);
      assert Fillings(l, now, n) + more == Fillings(l, now, n - 1) + ([u] + more);
    }
  }

  lemma OverflowIsObserved(l: Limits, now: int)
    requires l.leakInterval > 0 && !DurationsFit(l)
    ensures !EvictionIsUnobservable(l, now)
  {
    hide Filled, HoldsFull, UseStep, KeepingStep, Granted, AnswersOf, AnswersKeeping, DurationsFit, Fillings;
    var m := Store(map[], now);
    var filled := Fillings(l, now, GC_SIZE);
    var trigger, last := Use(KeyOf(GC_SIZE + 1), now + GC_PERIOD, 0), Use(KeyOf(0), now + GC_PERIOD, l.size);
    AfterFillings(l, now, GC_SIZE);
    TriggerCollects(AfterUses(m, l, filled), l, now);
    OtherKeyKeeps(AfterKeeping(m, l, filled), l, now, GC_SIZE + 1, now + GC_PERIOD);
    LastAnswer(m, l, filled, trigger);
    LastAnswerKeeping(m, l, filled, trigger);
    var uses := filled + [trigger] + [last];
    LastAnswer(m, l, filled + [trigger], last);
    LastAnswerKeeping(m, l, filled + [trigger], last);
    LastUseDiffers(AfterUses(m, l, filled + [trigger]), AfterKeeping(m, l, filled + [trigger]), l, now);
    TwoInOrder(trigger, last, now);
    FillingsInOrder(l, now, GC_SIZE, [trigger, last]);
    assert uses == filled + [trigger, last];
    assert UsesInOrder(uses, now) && AnswersOf(m, l, uses) != AnswersKeeping(m, l, uses);
  }

  lemma TwoInOrder(u: Use, v: Use, now: int)
    requires now <= u.at <= v.at
    ensures UsesInOrder([u, v], now)
  {
    assert [u, v][1..] == [v] && [v][1..] == [];
  }
}
