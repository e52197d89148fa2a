/** The particle emitter: a fixed-capacity ring of particle records with
    three integer cursors, aged, refilled and packed for upload once per
    frame (Emitter.h, Emitter.cpp). Times are reals; every value of
    `(float)rand() / RAND_MAX` the emitter would draw is an input. */
module Particles {
  import opened Common

  // ---------------------------------------------------------------------
  // Records
  // ---------------------------------------------------------------------

  /** One record of the structured buffer. Only spawn-time data is kept:
      position, rotation, colour and size at a later time are derived by
      the vertex shader from these fields and the elapsed time. */
  datatype Particle = Particle(
    spawnTime: real,
    startPos: Vec3,
    startVelocity: Vec3,
    startRotation: real,
    endRotation: real,
    padding: Vec3)

  /** The value `ZeroMemory` leaves in every slot. */
  const ZeroParticle := Particle(0.0, Zero3, Zero3, 0.0, 0.0, Zero3)

  /** The eight draws of `(float)rand() / RAND_MAX` that one successful
      spawn consumes: three for the position, three for the velocity, one
      for each rotation. */
  datatype Jitter = Jitter(pos: Vec3, vel: Vec3, rotStart: real, rotEnd: real)

  predicate ValidJitter(j: Jitter) {
    UnitInterval(j.pos.x) && UnitInterval(j.pos.y) && UnitInterval(j.pos.z) &&
    UnitInterval(j.vel.x) && UnitInterval(j.vel.y) && UnitInterval(j.vel.z) &&
    UnitInterval(j.rotStart) && UnitInterval(j.rotEnd)
  }

  /** The spawn parameters an emitter is constructed with. */
  datatype SpawnShape = SpawnShape(
    startVelocity: Vec3,
    positionRandomRange: Vec3,
    velocityRandomRange: Vec3,
    rotationStart: Vec2,
    rotationEnd: Vec2)

  /** Position jitter: `base + (u * 2 - 1) * range`, centred on the base. */
  function Centered(base: real, u: real, range: real): real {
    base + (u * 2.0 - 1.0) * range
  }

  /** Velocity jitter: `base + rand() / (RAND_MAX / (range * 2))`, that is
      `u * 2 * range` added on top of the base, never below it. */
  function Upward(base: real, u: real, range: real): real {
    base + u * (range * 2.0)
  }

  /** Rotation sample: `u * (hi - lo) + lo`. */
  function Between(u: real, lo: real, hi: real): real {
    u * (hi - lo) + lo
  }

  /** The record SpawnParticle leaves in a slot that held `slot`: every
      field but `padding` is written. */
  function Spawned(slot: Particle, t: real, at: Vec3, shape: SpawnShape, j: Jitter): Particle {
    var r := shape.positionRandomRange;
    var v := shape.velocityRandomRange;
    var b := shape.startVelocity;
    slot.(spawnTime := t,
          startPos := Vec3(Centered(at.x, j.pos.x, r.x), Centered(at.y, j.pos.y, r.y), Centered(at.z, j.pos.z, r.z)),
          startVelocity := Vec3(Upward(b.x, j.vel.x, v.x), Upward(b.y, j.vel.y, v.y), Upward(b.z, j.vel.z, v.z)),
          startRotation := Between(j.rotStart, shape.rotationStart.x, shape.rotationStart.y),
          endRotation := Between(j.rotEnd, shape.rotationEnd.x, shape.rotationEnd.y))
  }

  /** `p` is what a spawn at time `t` with draws `j` writes, whatever its padding. */
  predicate FreshFrom(p: Particle, t: real, at: Vec3, shape: SpawnShape, j: Jitter) {
    p == Spawned(p, t, at, shape, j)
  }

  /** Every record of `ps` from index `from` on is the spawn that drew
      `jitter(k - from)`: the k-th successful spawn of a run. */
  predicate FreshRun(ps: seq<Particle>, from: int, t: real, at: Vec3, shape: SpawnShape, jitter: nat -> Jitter) {
    forall k :: 0 <= from <= k < |ps| ==> FreshFrom(ps[k], t, at, shape, jitter(k - from))
  }

  /** `ps` is `prefix` followed by a run of spawns drawing `jitter(0)`,
      `jitter(1)`, ... in turn. */
  predicate SpawnedAfter(ps: seq<Particle>, prefix: seq<Particle>, t: real, at: Vec3, shape: SpawnShape, jitter: nat -> Jitter) {
    |prefix| <= |ps| && ps[..|prefix|] == prefix && FreshRun(ps, |prefix|, t, at, shape, jitter)
  }

  /** Appending the next spawn of a run keeps the run and the records before it. */
  lemma SpawnedAfterExtend(before: seq<Particle>, p: Particle, prefix: seq<Particle>,
                           t: real, at: Vec3, shape: SpawnShape, jitter: nat -> Jitter)
    requires SpawnedAfter(before, prefix, t, at, shape, jitter)
    requires FreshFrom(p, t, at, shape, jitter(|before| - |prefix|))
    ensures SpawnedAfter(before + [p], prefix, t, at, shape, jitter)
  {
    var after := before + [p];
    assert after[..|prefix|] == before[..|prefix|];
    forall k | |prefix| <= k < |after|
      ensures FreshFrom(after[k], t, at, shape, jitter(k - |prefix|))
    {
      if k < |before| {
        assert after[k] == before[k];
      }
    }
  }

  predicate NonNegative(v: Vec3) {
    v.x >= 0.0 && v.y >= 0.0 && v.z >= 0.0
  }

  lemma ScaledUnit(u: real, d: real)
    requires UnitInterval(u)
    ensures d >= 0.0 ==> 0.0 <= u * d <= d
    ensures d < 0.0 ==> d <= u * d <= 0.0
  {
    if d >= 0.0 {
      assert u * d <= 1.0 * d;
    } else {
      assert u * d >= 1.0 * d;
    }
  }

  /** A position axis lies within the range on either side of the base. */
  lemma CenteredBounds(base: real, u: real, range: real)
    requires UnitInterval(u) && range >= 0.0
    ensures base - range <= Centered(base, u, range) <= base + range
  {
    ScaledUnit(u, 2.0 * range);
    assert Centered(base, u, range) == base - range + u * (2.0 * range);
  }

  /** A velocity axis lies between the base and the base plus twice the range. */
  lemma UpwardBounds(base: real, u: real, range: real)
    requires UnitInterval(u) && range >= 0.0
    ensures base <= Upward(base, u, range) <= base + 2.0 * range
  {
    ScaledUnit(u, range * 2.0);
  }

  /** A rotation lies between the two configured ends, in either order. */
  lemma BetweenBounds(u: real, lo: real, hi: real)
    requires UnitInterval(u)
    ensures Within(Between(u, lo, hi), lo, hi)
  {
    var d := hi - lo;
    ScaledUnit(u, d);
    assert Between(u, lo, hi) == u * d + lo;
  }

  /** The ranges a spawned record's fields lie in: each position axis within
      the emitter position plus or minus the position range, each velocity
      axis between the base and the base plus twice the velocity range (the
      jitter is one-sided), each rotation between the two configured ends;
      the spawn time is the current time and the padding is left alone. */
  lemma SpawnBounds(slot: Particle, t: real, at: Vec3, shape: SpawnShape, j: Jitter)
    requires ValidJitter(j)
    requires NonNegative(shape.positionRandomRange) && NonNegative(shape.velocityRandomRange)
    ensures var p := Spawned(slot, t, at, shape, j);
      var r := shape.positionRandomRange;
      var v := shape.velocityRandomRange;
      var b := shape.startVelocity;
      && p.spawnTime == t && p.padding == slot.padding
      && at.x - r.x <= p.startPos.x <= at.x + r.x
      && at.y - r.y <= p.startPos.y <= at.y + r.y
      && at.z - r.z <= p.startPos.z <= at.z + r.z
      && b.x <= p.startVelocity.x <= b.x + 2.0 * v.x
      && b.y <= p.startVelocity.y <= b.y + 2.0 * v.y
      && b.z <= p.startVelocity.z <= b.z + 2.0 * v.z
      && Within(p.startRotation, shape.rotationStart.x, shape.rotationStart.y)
      && Within(p.endRotation, shape.rotationEnd.x, shape.rotationEnd.y)
  {
    var r := shape.positionRandomRange;
    var v := shape.velocityRandomRange;
    var b := shape.startVelocity;
    CenteredBounds(at.x, j.pos.x, r.x);
    CenteredBounds(at.y, j.pos.y, r.y);
    CenteredBounds(at.z, j.pos.z, r.z);
    UpwardBounds(b.x, j.vel.x, v.x);
    UpwardBounds(b.y, j.vel.y, v.y);
    UpwardBounds(b.z, j.vel.z, v.z);
    BetweenBounds(j.rotStart, shape.rotationStart.x, shape.rotationStart.y);
    BetweenBounds(j.rotEnd, shape.rotationEnd.x, shape.rotationEnd.y);
  }

  // ---------------------------------------------------------------------
  // The ring: cursors and the live span
  // ---------------------------------------------------------------------

  /** The ring invariant over capacity `m`, first live slot `fa`, first
      dead slot `fd` and live count `n`. With no slots at all every cursor
      stays 0 (the source never reaches a `% 0` then). */
  predicate Ring(m: int, fa: int, fd: int, n: int) {
    && 0 <= n <= m
    && (m == 0 ==> fa == 0 && fd == 0)
    && (m > 0 ==> 0 <= fa < m && 0 <= fd < m && fd == Wrap(fa + n, m))
  }

  /** The slot `x` lands on in a ring of `m` slots, for `x < 2 * m`: the
      value of `x % m` the cursor arithmetic computes. */
  function Wrap(x: int, m: int): int {
    if x < m then x else x - m
  }

  lemma ModWrap(x: int, m: int)
    requires 0 <= x < 2 * m
    ensures x % m == Wrap(x, m)
  {
    if x >= m {
      assert x == 1 * m + (x - m);
    }
  }

  /** Whether slot `i` of a ring of `m` slots lies outside the `n` live
      slots that start at `fa`: its distance forward from `fa` is at least `n`. */
  predicate DeadSlot(i: int, m: int, fa: int, n: int) {
    Wrap(i - fa + m, m) >= n
  }

  /** Every slot of `s` outside the `n` live slots from `fa` still holds
      what it held in `orig`. */
  predicate DeadKept(s: seq<Particle>, orig: seq<Particle>, fa: int, n: int) {
    && |s| == |orig|
    && forall i :: 0 <= i < |s| && DeadSlot(i, |s|, fa, n) ==> s[i] == orig[i]
  }

  /** Writing the first dead slot and counting it live keeps the other dead
      slots as they were. */
  lemma SpawnKeepsDead(s: seq<Particle>, orig: seq<Particle>, fa: int, fd: int, n: int, p: Particle)
    requires Ring(|s|, fa, fd, n) && n < |s|
    requires DeadKept(s, orig, fa, n)
    ensures DeadKept(s[fd := p], orig, fa, n + 1)
  {
    forall i | 0 <= i < |s| && DeadSlot(i, |s|, fa, n + 1)
      ensures s[fd := p][i] == orig[i]
    {
      assert i != fd;
    }
  }

  /** A spawn (first dead cursor and count advance) keeps the ring invariant. */
  lemma RingSpawn(m: int, fa: int, fd: int, n: int)
    requires Ring(m, fa, fd, n) && n < m
    ensures Ring(m, fa, Wrap(fd + 1, m), n + 1)
  {
  }

  /** A retirement (first live cursor advances, count drops) keeps the ring invariant. */
  lemma RingRetire(m: int, fa: int, fd: int, n: int)
    requires Ring(m, fa, fd, n) && n > 0
    ensures Ring(m, Wrap(fa + 1, m), fd, n - 1)
  {
  }

  lemma DropTwice(s: seq<Particle>, a: nat, b: nat)
    requires a <= |s| && b <= |s| - a
    ensures s[a..][b..] == s[a + b..]
  {
  }

  /** One retirement in terms of a live span that started out as `live0`
      and has already lost its first `r` records. */
  lemma RetireStep(s: seq<Particle>, fa: int, fd: int, n: int, live0: seq<Particle>, r: int)
    requires Ring(|s|, fa, fd, n) && 0 < n
    requires 0 <= r <= |live0| && LiveSpan(s, fa, n) == live0[r..]
    ensures Ring(|s|, Wrap(fa + 1, |s|), fd, n - 1)
    ensures r < |live0| && LiveSpan(s, Wrap(fa + 1, |s|), n - 1) == live0[r + 1..]
  {
    RingRetire(|s|, fa, fd, n);
    LiveRetire(s, fa, n);
    assert live0[r..][1..] == live0[r + 1..];
  }

  /** One step of an aging loop over slots `lo..`: slot `i` has been
      visited, moving the cursors from `(fa, n)` to `(fa', n')`; the loop's
      account (retired count and remaining live span) moves on with them. */
  lemma AgeStep(s: seq<Particle>, lo: int, i: int, fa: int, fd: int, n: int, fa': int, n': int,
                live0: seq<Particle>, r: int, t: real, lifetime: real)
    requires 0 <= lo <= i < |s| && i - lo < |live0|
    requires Ring(|s|, fa, fd, n) && r == ExpiredCount(s[lo..i], t, lifetime)
    requires n == |live0| - r && LiveSpan(s, fa, n) == live0[r..]
    requires Expired(s[i], t, lifetime) ==> fa' == Wrap(fa + 1, |s|) && n' == n - 1
    requires !Expired(s[i], t, lifetime) ==> fa' == fa && n' == n
    ensures var r' := r + if Expired(s[i], t, lifetime) then 1 else 0;
      && Ring(|s|, fa', fd, n')
      && r' == ExpiredCount(s[lo..i + 1], t, lifetime)
      && n' == |live0| - r' && LiveSpan(s, fa', n') == live0[r'..]
  {
    ExpiredCountStep(s, lo, i, t, lifetime);
    if Expired(s[i], t, lifetime) {
      assert |s[lo..i]| == i - lo;
      RetireStep(s, fa, fd, n, live0, r);
    }
  }

  /** The live particles, oldest first: `n` slots from `fa`, wrapping past the end. */
  function LiveSpan(s: seq<Particle>, fa: int, n: int): (r: seq<Particle>)
    requires 0 <= fa <= |s| && 0 <= n <= |s|
    ensures |r| == n
  {
    if fa + n <= |s| then s[fa..fa + n] else s[fa..] + s[..fa + n - |s|]
  }

  lemma LiveSpanAt(s: seq<Particle>, fa: int, n: int, k: int)
    requires 0 <= fa < |s| && 0 <= n <= |s| && 0 <= k < n
    ensures LiveSpan(s, fa, n)[k] == s[Wrap(fa + k, |s|)]
  {
  }

  /** Writing slot `fa + n` (wrapped) and counting one more appends that record
      to the live span and keeps everything older. */
  lemma LiveSpawn(s: seq<Particle>, fa: int, n: int, p: Particle)
    requires 0 <= fa < |s| && 0 <= n < |s|
    ensures LiveSpan(s[Wrap(fa + n, |s|) := p], fa, n + 1) == LiveSpan(s, fa, n) + [p]
  {
    var m := |s|;
    var s' := s[Wrap(fa + n, m) := p];
    var a := LiveSpan(s', fa, n + 1);
    var b := LiveSpan(s, fa, n) + [p];
    forall k | 0 <= k < n + 1
      ensures a[k] == b[k]
    {
      LiveSpanAt(s', fa, n + 1, k);
      if k < n {
        LiveSpanAt(s, fa, n, k);
      }
    }
  }

  /** Advancing the first live cursor and counting one fewer drops exactly
      the oldest live record. */
  lemma LiveRetire(s: seq<Particle>, fa: int, n: int)
    requires 0 <= fa < |s| && 0 < n <= |s|
    ensures LiveSpan(s, Wrap(fa + 1, |s|), n - 1) == LiveSpan(s, fa, n)[1..]
  {
    var m := |s|;
    var fa' := Wrap(fa + 1, m);
    forall k | 0 <= k < n - 1
      ensures LiveSpan(s, fa', n - 1)[k] == LiveSpan(s, fa, n)[1..][k]
    {
      LiveSpanAt(s, fa', n - 1, k);
      LiveSpanAt(s, fa, n, k + 1);
    }
  }

  // ---------------------------------------------------------------------
  // Aging
  // ---------------------------------------------------------------------

  /** A particle dies once it has been alive for its lifetime. */
  predicate Expired(p: Particle, t: real, lifetime: real) {
    t - p.spawnTime >= lifetime
  }

  /** How many of `ps` are expired at time `t`. */
  function ExpiredCount(ps: seq<Particle>, t: real, lifetime: real): (r: nat)
    ensures r <= |ps|
  {
    if ps == [] then 0
    else ExpiredCount(ps[..|ps| - 1], t, lifetime) + (if Expired(ps[|ps| - 1], t, lifetime) then 1 else 0)
  }

  lemma {:induction false} ExpiredCountAppend(a: seq<Particle>, b: seq<Particle>, t: real, lifetime: real)
    ensures ExpiredCount(a + b, t, lifetime) == ExpiredCount(a, t, lifetime) + ExpiredCount(b, t, lifetime)
  {
    if b == [] {
      assert a + b == a;
    } else {
      var b' := b[..|b| - 1];
      assert (a + b)[..|a + b| - 1] == a + b';
      assert (a + b)[|a + b| - 1] == b[|b| - 1];
      ExpiredCountAppend(a, b', t, lifetime);
    }
  }

  lemma ExpiredCountSnoc(a: seq<Particle>, x: Particle, t: real, lifetime: real)
    ensures ExpiredCount(a + [x], t, lifetime) == ExpiredCount(a, t, lifetime) + if Expired(x, t, lifetime) then 1 else 0
  {
    assert (a + [x])[..|a|] == a;
  }

  /** Extending a scanned range by one slot counts that slot. */
  lemma ExpiredCountStep(s: seq<Particle>, lo: int, i: int, t: real, lifetime: real)
    requires 0 <= lo <= i < |s|
    ensures ExpiredCount(s[lo..i + 1], t, lifetime) == ExpiredCount(s[lo..i], t, lifetime) + if Expired(s[i], t, lifetime) then 1 else 0
  {
    assert s[lo..i + 1] == s[lo..i] + [s[i]];
    ExpiredCountSnoc(s[lo..i], s[i], t, lifetime);
  }

  /** When every particle is expired, all of them are counted. */
  lemma {:induction false} AllExpiredCount(ps: seq<Particle>, t: real, lifetime: real)
    requires forall k :: 0 <= k < |ps| ==> Expired(ps[k], t, lifetime)
    ensures ExpiredCount(ps, t, lifetime) == |ps|
  {
    if ps != [] {
      AllExpiredCount(ps[..|ps| - 1], t, lifetime);
    }
  }

  /** The records the aging pass visits (Emitter.cpp:108-130), in visiting
      order: the span `[fa, fd)`, or `[fa, max)` then `[0, fd)`, or every
      slot `[0, max)` by index when the cursors meet. */
  function Scanned(s: seq<Particle>, fa: int, fd: int, n: int): seq<Particle>
    requires 0 <= fa <= |s| && 0 <= fd <= |s|
  {
    if n <= 0 then []
    else if fa < fd then s[fa..fd]
    else if fa > fd then s[fa..] + s[..fd]
    else s
  }

  /** The aging pass visits exactly the live records: in oldest-first order
      unless the ring is full, and then in slot order, which is a rotation
      of the live span. Either way it finds the same number of expired
      records as the live span holds. */
  lemma ScannedCoversLive(s: seq<Particle>, fa: int, fd: int, n: int, t: real, lifetime: real)
    requires Ring(|s|, fa, fd, n)
    ensures |Scanned(s, fa, fd, n)| == n
    ensures (fa != fd || n == 0) ==> Scanned(s, fa, fd, n) == LiveSpan(s, fa, n)
    ensures (fa == fd && n > 0) ==> Scanned(s, fa, fd, n) == s && LiveSpan(s, fa, n) == s[fa..] + s[..fa]
    ensures ExpiredCount(Scanned(s, fa, fd, n), t, lifetime) == ExpiredCount(LiveSpan(s, fa, n), t, lifetime)
  {
    var m := |s|;
    if m > 0 {
      if fa == fd && n > 0 {
        assert n == m;
        if fa == 0 {
          assert s[fa..] + s[..fa] == s;
        }
        assert s == s[..fa] + s[fa..];
        ExpiredCountAppend(s[..fa], s[fa..], t, lifetime);
        ExpiredCountAppend(s[fa..], s[..fa], t, lifetime);
      }
    }
  }

  /** The wrapped aging pass in two loops: the tail `[fa, max)` fits in the
      live count, the head `[0, fd)` fits in what the tail leaves alive, and
      the two counts add up to the expired records of the live span. */
  lemma WrapAging(s: seq<Particle>, fa: int, fd: int, n: int, t: real, lifetime: real)
    requires Ring(|s|, fa, fd, n) && 0 < n && fa > fd
    ensures |s| - fa <= n
    ensures fd <= n - ExpiredCount(s[fa..|s|], t, lifetime)
    ensures ExpiredCount(s[fa..|s|], t, lifetime) + ExpiredCount(s[0..fd], t, lifetime)
      == ExpiredCount(LiveSpan(s, fa, n), t, lifetime)
  {
    assert s[fa..|s|] == s[fa..];
    assert s[0..fd] == s[..fd];
    assert |s[fa..]| == |s| - fa;
    ExpiredCountAppend(s[fa..], s[..fd], t, lifetime);
  }

  /** When spawn times do not decrease from oldest to newest, the records the
      aging pass retires (the first `ExpiredCount` of the live span) are
      exactly the expired ones and the survivors are exactly the unexpired. */
  predicate SpawnOrdered(ps: seq<Particle>) {
    forall i, j :: 0 <= i < j < |ps| ==> ps[i].spawnTime <= ps[j].spawnTime
  }

  lemma {:induction false} OrderedAgingSplits(ps: seq<Particle>, t: real, lifetime: real)
    requires SpawnOrdered(ps)
    ensures forall k :: 0 <= k < ExpiredCount(ps, t, lifetime) ==> Expired(ps[k], t, lifetime)
    ensures forall k :: ExpiredCount(ps, t, lifetime) <= k < |ps| ==> !Expired(ps[k], t, lifetime)
  {
    if ps != [] {
      var init := ps[..|ps| - 1];
      var last := ps[|ps| - 1];
      OrderedAgingSplits(init, t, lifetime);
      if Expired(last, t, lifetime) {
        forall k | 0 <= k < |init|
          ensures Expired(init[k], t, lifetime)
        {
          assert ps[k].spawnTime <= last.spawnTime;
        }
        AllExpiredCount(init, t, lifetime);
      }
    }
  }

  /** Without ordered spawn times the pass can retire a live particle and keep
      an expired one: the first record is young, the second old, one record
      is found expired, and it is the young first one that is retired. */
  lemma UnorderedAgingKeepsExpired()
    ensures var young := ZeroParticle.(spawnTime := 4.0);
      var aged := ZeroParticle.(spawnTime := 0.0);
      var ps := [young, aged];
      && ExpiredCount(ps, 5.0, 3.0) == 1
      && !Expired(ps[0], 5.0, 3.0)
      && ps[1..] == [aged] && Expired(aged, 5.0, 3.0)
  {
    var young := ZeroParticle.(spawnTime := 4.0);
    var aged := ZeroParticle.(spawnTime := 0.0);
    var ps := [young, aged];
    assert ps[..1] == [young];
    assert [young][..0] == [];
  }

  // ---------------------------------------------------------------------
  // The spawn budget
  // ---------------------------------------------------------------------

  /** Some whole number of intervals `d` exceeds any budget `b`. */
  lemma Archimedean(b: real, d: real) returns (bound: nat)
    requires d > 0.0
    ensures Drained(b, bound, d) < 0.0
  {
    if b < 0.0 {
      bound := 0;
    } else {
      var q := b / d;
      bound := q.Floor + 1;
      assert bound as real > q;
      assert bound as real * d > q * d;
    }
    DrainedProduct(b, bound, d);
  }

  /** The accumulator after `a` intervals of `d` are taken from budget `b`,
      one subtraction at a time as the loop does it. */
  function Drained(b: real, a: nat, d: real): real {
    if a == 0 then b else Drained(b, a - 1, d) - d
  }

  /** The accumulator `now` is what `before` plus `dt` leaves after `attempts` intervals of `d`. */
  predicate Charged(now: real, before: real, dt: real, attempts: nat, d: real) {
    now == Drained(before + dt, attempts, d)
  }

  lemma {:induction false} DrainedProduct(b: real, a: nat, d: real)
    ensures Drained(b, a, d) == b - a as real * d
  {
    if a > 0 {
      DrainedProduct(b, a - 1, d);
      assert (a - 1) as real * d + d == a as real * d;
    }
  }

  /** While the accumulator still exceeds an interval the attempt count is
      below any bound whose intervals exceed the whole budget. */
  lemma BudgetStep(budget: real, attempts: nat, d: real, bound: nat)
    requires d > 0.0 && Drained(budget, bound, d) < 0.0
    requires Drained(budget, attempts, d) > d
    ensures attempts < bound
  {
    DrainedProduct(budget, attempts, d);
    DrainedProduct(budget, bound, d);
    assert (bound - attempts) as real * d > d;
  }

  // ---------------------------------------------------------------------
  // Packing for upload
  // ---------------------------------------------------------------------

  /** The records `Update` copies into the mapped upload buffer
      (Emitter.cpp:144-154), in buffer order: one copy of `n` records from
      `fa` when `fa < fd`, otherwise the head `[0, fd)` and then the tail
      `[fa, max)`. */
  function Packed(s: seq<Particle>, fa: int, fd: int, n: int): seq<Particle>
    requires 0 <= fa <= |s| && 0 <= fd <= |s| && 0 <= n
    requires fa < fd ==> fa + n <= |s|
  {
    if fa < fd then s[fa..fa + n] else s[..fd] + s[fa..]
  }

  /** With the cursors met or crossed and something alive, the upload is
      the live span rotated so that its part in `[0, fd)` comes first. */
  lemma PackedWrapped(s: seq<Particle>, fa: int, fd: int, n: int)
    requires Ring(|s|, fa, fd, n) && fa >= fd && n > 0
    ensures Packed(s, fa, fd, n) == LiveSpan(s, fa, n)[|s| - fa..] + LiveSpan(s, fa, n)[..|s| - fa]
  {
    var m := |s|;
    var live := LiveSpan(s, fa, n);
    if fa + n <= m {
      assert fa + n == m && fd == 0;
      assert live == s[fa..];
      assert live[m - fa..] == [];
    } else {
      assert live == s[fa..] + s[..fd];
      assert live[m - fa..] == s[..fd];
      assert live[..m - fa] == s[fa..];
    }
  }

  lemma RotationMultiset(x: seq<Particle>, k: int)
    requires 0 <= k <= |x|
    ensures multiset(x[k..] + x[..k]) == multiset(x)
  {
    assert x == x[..k] + x[k..];
  }

  /** What the upload holds: the live span in order when it does not wrap;
      otherwise the newer part before the older part (a rotation of the live
      span, newest block first); and, with nothing alive, all `max` slots. */
  lemma PackedLayout(s: seq<Particle>, fa: int, fd: int, n: int)
    requires Ring(|s|, fa, fd, n)
    ensures fa < fd ==> fa + n <= |s|
    ensures fa < fd ==> Packed(s, fa, fd, n) == LiveSpan(s, fa, n)
    ensures fa >= fd && n > 0 ==>
      Packed(s, fa, fd, n) == LiveSpan(s, fa, n)[|s| - fa..] + LiveSpan(s, fa, n)[..|s| - fa]
    ensures n == 0 ==> Packed(s, fa, fd, n) == s
    ensures n > 0 ==> |Packed(s, fa, fd, n)| == n && multiset(Packed(s, fa, fd, n)) == multiset(LiveSpan(s, fa, n))
  {
    if fa >= fd {
      if n > 0 {
        PackedWrapped(s, fa, fd, n);
        RotationMultiset(LiveSpan(s, fa, n), |s| - fa);
      } else {
        assert s[..fd] + s[fa..] == s;
      }
    }
  }

  // ---------------------------------------------------------------------
  // Index buffer
  // ---------------------------------------------------------------------

  /** Corner `j` (of 0..5) of a quad's two triangles: 0,1,2 and 0,2,3. */
  function QuadCorner(j: int): int
    requires 0 <= j < 6
  {
    [0, 1, 2, 0, 2, 3][j]
  }

  /** The index list createBuffers uploads (Emitter.cpp:53-65): six indices
      per particle, quad q using vertices 4q..4q+3 as triangles
      (4q, 4q+1, 4q+2) and (4q, 4q+2, 4q+3). */
  method BuildQuadIndices(maxParticles: int) returns (indices: seq<int>)
    requires maxParticles >= 0
    ensures |indices| == 6 * maxParticles
    ensures forall k :: 0 <= k < |indices| ==> indices[k] == 4 * (k / 6) + QuadCorner(k % 6)
    ensures forall k :: 0 <= k < |indices| ==> 0 <= indices[k] < 4 * maxParticles
  {
    var a := new int[6 * maxParticles];
    var indexCount := 0;
    var i := 0;
    ghost var q := 0;
    while i < maxParticles * 4
      invariant 0 <= q <= maxParticles
      invariant i == 4 * q && indexCount == 6 * q
      invariant forall k :: 0 <= k < indexCount ==> a[k] == 4 * (k / 6) + QuadCorner(k % 6)
    {
      a[indexCount] := i;
      a[indexCount + 1] := i + 1;
      a[indexCount + 2] := i + 2;
      a[indexCount + 3] := i;
      a[indexCount + 4] := i + 2;
      a[indexCount + 5] := i + 3;
      forall k | indexCount <= k < indexCount + 6
        ensures k / 6 == q && k % 6 == k - indexCount
      {
        assert k == 6 * q + (k - indexCount);
      }
      indexCount := indexCount + 6;
      i := i + 4;
      q := q + 1;
    }
    indices := a[..];
    forall k | 0 <= k < |indices|
      ensures 0 <= indices[k] < 4 * maxParticles
    {
      assert k / 6 < maxParticles;
    }
  }

  // ---------------------------------------------------------------------
  // The emitter
  // ---------------------------------------------------------------------

  class Emitter {
    /** The particle ring (`particles`, reallocated by CreateBuffers). */
    var particles: array<Particle>
    const maxParticles: int
    var firstDeadIndex: int
    var firstAliveIndex: int
    var numAliveParticles: int

    const particlesPerSecond: int
    const secondsPerParticle: real
    var timeSinceEmit: real
    const lifetime: real

    var emitterPosition: Vec3
    const shape: SpawnShape

    /** The contents of the index buffer created by CreateBuffers. */
    var indexData: seq<int>

    /** The ring invariant plus the construction-time facts the methods rely on. */
    ghost predicate Valid()
      reads this`particles, this`firstAliveIndex, this`firstDeadIndex, this`numAliveParticles, this`indexData
    {
      && particles.Length == maxParticles
      && Ring(maxParticles, firstAliveIndex, firstDeadIndex, numAliveParticles)
      && particlesPerSecond > 0
      && secondsPerParticle > 0.0
      && |indexData| == 6 * maxParticles
    }

    /** The live particles, oldest first. */
    ghost function Live(): seq<Particle>
      reads this`particles, this`firstAliveIndex, this`numAliveParticles, particles
      requires 0 <= firstAliveIndex <= particles.Length && 0 <= numAliveParticles <= particles.Length
    {
      LiveSpan(particles[..], firstAliveIndex, numAliveParticles)
    }

    constructor (emitterPosition: Vec3, maxParticles: int, particlesPerSecond: int,
                 lifetime: real, shape: SpawnShape)
      requires maxParticles >= 0 && particlesPerSecond > 0
      ensures Valid() && fresh(particles)
      ensures this.emitterPosition == emitterPosition && this.shape == shape
      ensures this.maxParticles == maxParticles && this.lifetime == lifetime
      ensures this.particlesPerSecond == particlesPerSecond
      ensures secondsPerParticle == 1.0 / particlesPerSecond as real
      ensures timeSinceEmit == 0.0
      ensures numAliveParticles == 0 && firstAliveIndex == 0 && firstDeadIndex == 0
      ensures forall i :: 0 <= i < particles.Length ==> particles[i] == ZeroParticle
      ensures Live() == []
      ensures forall k :: 0 <= k < |indexData| ==> indexData[k] == 4 * (k / 6) + QuadCorner(k % 6)
    {
      this.emitterPosition := emitterPosition;
      this.maxParticles := maxParticles;
      this.particlesPerSecond := particlesPerSecond;
      this.lifetime := lifetime;
      this.shape := shape;
      secondsPerParticle := 1.0 / particlesPerSecond as real;
      timeSinceEmit := 0.0;
      numAliveParticles := 0;
      firstAliveIndex := 0;
      firstDeadIndex := 0;
      particles := new Particle[maxParticles](_ => ZeroParticle);
      indexData := [];
      new;
      CreateBuffers();
    }

    /** createBuffers: a fresh zeroed particle array and the quad index list. */
    method CreateBuffers()
      requires maxParticles >= 0
      modifies this`particles, this`indexData
      ensures fresh(particles) && particles.Length == maxParticles
      ensures forall i :: 0 <= i < particles.Length ==> particles[i] == ZeroParticle
      ensures |indexData| == 6 * maxParticles
      ensures forall k :: 0 <= k < |indexData| ==> indexData[k] == 4 * (k / 6) + QuadCorner(k % 6)
    {
      particles := new Particle[maxParticles](_ => ZeroParticle);
      indexData := BuildQuadIndices(maxParticles);
    }

    /** Ages slot `index`: if the particle there has lived its lifetime, the
        first live cursor advances and the count drops — whichever slot the
        cursor is on. */
    method UpdateSingleParticle(currentTime: real, index: int)
      requires particles.Length == maxParticles && 0 <= index < maxParticles
      requires 0 <= firstAliveIndex < maxParticles
      modifies this`firstAliveIndex, this`numAliveParticles
      ensures Expired(particles[index], currentTime, lifetime) ==>
        firstAliveIndex == Wrap(old(firstAliveIndex) + 1, maxParticles) &&
        numAliveParticles == old(numAliveParticles) - 1
      ensures !Expired(particles[index], currentTime, lifetime) ==>
        firstAliveIndex == old(firstAliveIndex) && numAliveParticles == old(numAliveParticles)
    {
      var timeAlive := currentTime - particles[index].spawnTime;
      if timeAlive >= lifetime {
        ModWrap(firstAliveIndex + 1, maxParticles);
        firstAliveIndex := (firstAliveIndex + 1) % maxParticles;
        numAliveParticles := numAliveParticles - 1;
      }
    }

    /** Ages the slots `lo..hi-1` in index order, one loop of the aging pass. */
    method AgeSlots(currentTime: real, lo: int, hi: int) returns (ghost retired: nat)
      requires Valid() && 0 <= lo <= hi <= maxParticles && hi - lo <= numAliveParticles
      modifies this`firstAliveIndex, this`numAliveParticles
      ensures Valid()
      ensures retired == ExpiredCount(particles[lo..hi], currentTime, lifetime)
      ensures numAliveParticles == old(numAliveParticles) - retired
      ensures Live() == old(Live())[retired..]
    {
      ghost var live0 := Live();
      ghost var s := particles[..];
      retired := 0;
      var i := lo;
      while i < hi
        invariant lo <= i <= hi
        invariant Ring(maxParticles, firstAliveIndex, firstDeadIndex, numAliveParticles)
        invariant retired == ExpiredCount(s[lo..i], currentTime, lifetime)
        invariant numAliveParticles == |live0| - retired
        invariant LiveSpan(s, firstAliveIndex, numAliveParticles) == live0[retired..]
      {
        ghost var fa := firstAliveIndex;
        ghost var n := numAliveParticles;
        UpdateSingleParticle(currentTime, i);
        AgeStep(s, lo, i, fa, firstDeadIndex, n, firstAliveIndex, numAliveParticles, live0, retired, currentTime, lifetime);
        retired := retired + if Expired(s[i], currentTime, lifetime) then 1 else 0;
        i := i + 1;
      }
    }

    /** The wrapped case of the aging pass (Emitter.cpp:116-123): the tail
        `[fa, max)` and then the head `[0, fd)`. */
    method AgeWrapped(currentTime: real) returns (ghost retired: nat)
      requires Valid() && numAliveParticles > 0 && firstAliveIndex > firstDeadIndex
      modifies this`firstAliveIndex, this`numAliveParticles
      ensures Valid()
      ensures retired == ExpiredCount(old(Live()), currentTime, lifetime)
      ensures numAliveParticles == old(numAliveParticles) - retired
      ensures Live() == old(Live())[retired..]
    {
      ghost var live0 := Live();
      WrapAging(particles[..], firstAliveIndex, firstDeadIndex, numAliveParticles, currentTime, lifetime);
      var r1 := AgeSlots(currentTime, firstAliveIndex, maxParticles);
      ghost var live1 := Live();
      var r2 := AgeSlots(currentTime, 0, firstDeadIndex);
      DropTwice(live0, r1, r2);
      retired := r1 + r2;
    }

    /** The aging pass of Update (Emitter.cpp:107-130): visits exactly the
        live slots, and retires one particle from the old end per expired
        record it finds. */
    method Age(currentTime: real) returns (ghost retired: nat)
      requires Valid()
      modifies this`firstAliveIndex, this`numAliveParticles
      ensures Valid()
      ensures retired == ExpiredCount(Scanned(particles[..], old(firstAliveIndex), firstDeadIndex, old(numAliveParticles)), currentTime, lifetime)
      ensures retired == ExpiredCount(old(Live()), currentTime, lifetime)
      ensures numAliveParticles == old(numAliveParticles) - retired
      ensures Live() == old(Live())[retired..]
    {
      ghost var s := particles[..];
      ghost var fa := firstAliveIndex;
      ghost var n := numAliveParticles;
      ghost var scanned := Scanned(s, fa, firstDeadIndex, n);
      ScannedCoversLive(s, fa, firstDeadIndex, n, currentTime, lifetime);
      assert ExpiredCount(scanned, currentTime, lifetime) == ExpiredCount(Live(), currentTime, lifetime);
      retired := 0;
      if numAliveParticles > 0 {
        if firstAliveIndex < firstDeadIndex {
          retired := AgeSlots(currentTime, firstAliveIndex, firstDeadIndex);
          assert s[fa..firstDeadIndex] == scanned;
        } else if firstAliveIndex > firstDeadIndex {
          retired := AgeWrapped(currentTime);
        } else {
          retired := AgeSlots(currentTime, 0, maxParticles);
          assert s[0..maxParticles] == scanned;
        }
      }
      assert retired == ExpiredCount(scanned, currentTime, lifetime);
    }

    /** Writes a new particle at the first dead slot and advances the cursor,
        unless the ring is full, in which case nothing changes. */
    method SpawnParticle(currentTime: real, j: Jitter)
      requires Valid()
      modifies particles, this`firstDeadIndex, this`numAliveParticles
      ensures Valid()
      ensures old(numAliveParticles) < maxParticles ==>
        && particles[..] == old(particles[..])[old(firstDeadIndex) :=
             Spawned(old(particles[firstDeadIndex]), currentTime, emitterPosition, shape, j)]
        && firstDeadIndex == (old(firstDeadIndex) + 1) % maxParticles
        && numAliveParticles == old(numAliveParticles) + 1
        && Live() == old(Live()) + [particles[old(firstDeadIndex)]]
        && FreshFrom(particles[old(firstDeadIndex)], currentTime, emitterPosition, shape, j)
      ensures old(numAliveParticles) >= maxParticles ==>
        && particles[..] == old(particles[..])
        && firstDeadIndex == old(firstDeadIndex)
        && numAliveParticles == old(numAliveParticles)
    {
      if numAliveParticles < maxParticles {
        ghost var s := particles[..];
        var p := Spawned(particles[firstDeadIndex], currentTime, emitterPosition, shape, j);
        particles[firstDeadIndex] := p;
        LiveSpawn(s, firstAliveIndex, numAliveParticles, p);
        RingSpawn(maxParticles, firstAliveIndex, firstDeadIndex, numAliveParticles);
        ModWrap(firstDeadIndex + 1, maxParticles);
        firstDeadIndex := (firstDeadIndex + 1) % maxParticles;
        numAliveParticles := numAliveParticles + 1;
      }
    }

    /** One spawn attempt of EmitDue: SpawnParticle with the `spawned`-th
        draw, counted when the ring had room. The live list stays `live0`
        followed by fresh spawns, and the slots outside it stay as in `slots0`. */
    method SpawnCounted(currentTime: real, jitter: nat -> Jitter, n0: nat, spawned: nat,
                        ghost live0: seq<Particle>, ghost slots0: seq<Particle>)
      returns (spawned': nat)
      requires Valid() && numAliveParticles == n0 + spawned && |live0| == n0
      requires SpawnedAfter(Live(), live0, currentTime, emitterPosition, shape, jitter)
      requires DeadKept(particles[..], slots0, firstAliveIndex, numAliveParticles)
      modifies particles, this`firstDeadIndex, this`numAliveParticles
      ensures Valid() && numAliveParticles == n0 + spawned'
      ensures spawned' == if n0 + spawned < maxParticles then spawned + 1 else spawned
      ensures SpawnedAfter(Live(), live0, currentTime, emitterPosition, shape, jitter)
      ensures DeadKept(particles[..], slots0, firstAliveIndex, numAliveParticles)
    {
      ghost var before, slotsBefore := Live(), particles[..];
      ghost var slot := firstDeadIndex;
      SpawnParticle(currentTime, jitter(spawned));
      spawned' := spawned;
      if numAliveParticles > n0 + spawned {
        assert particles[..] == slotsBefore[slot := particles[slot]];
        SpawnKeepsDead(slotsBefore, slots0, firstAliveIndex, slot, n0 + spawned, particles[slot]);
        assert Live() == before + [particles[slot]];
        SpawnedAfterExtend(before, particles[slot], live0, currentTime, emitterPosition, shape, jitter);
        spawned' := spawned + 1;
      } else {
        assert particles[..] == slotsBefore;
      }
    }

    /** The spawn budget of Update (Emitter.cpp:132-139): `dt` is added to
        the accumulator, then one spawn is attempted per whole interval it
        exceeds, full ring or not. `jitter(k)` is the draw of the k-th
        successful spawn. */
    method EmitDue(dt: real, currentTime: real, jitter: nat -> Jitter)
      returns (attempts: nat, spawned: nat)
      requires Valid()
      modifies particles, this`firstDeadIndex, this`numAliveParticles, this`timeSinceEmit
      ensures Valid()
      ensures timeSinceEmit <= secondsPerParticle
      ensures Charged(timeSinceEmit, old(timeSinceEmit), dt, attempts, secondsPerParticle)
      ensures attempts > 0 ==> timeSinceEmit > 0.0
      ensures spawned == Min(attempts, maxParticles - old(numAliveParticles))
      ensures numAliveParticles == old(numAliveParticles) + spawned
      ensures SpawnedAfter(Live(), old(Live()), currentTime, emitterPosition, shape, jitter)
      ensures DeadKept(particles[..], old(particles[..]), firstAliveIndex, numAliveParticles)
    {
      var n0 := numAliveParticles;
      ghost var slots0 := particles[..];
      ghost var live0 := Live();
      ghost var budget0 := timeSinceEmit + dt;
      ghost var bound := Archimedean(budget0, secondsPerParticle);
      timeSinceEmit := timeSinceEmit + dt;
      attempts, spawned := 0, 0;
      while timeSinceEmit > secondsPerParticle
        invariant Valid()
        invariant attempts <= bound
        invariant timeSinceEmit == Drained(budget0, attempts, secondsPerParticle)
        invariant attempts > 0 ==> timeSinceEmit > 0.0
        invariant spawned == Min(attempts, maxParticles - n0)
        invariant numAliveParticles == n0 + spawned
        invariant SpawnedAfter(Live(), live0, currentTime, emitterPosition, shape, jitter)
        invariant DeadKept(particles[..], slots0, firstAliveIndex, numAliveParticles)
        decreases bound - attempts
      {
        BudgetStep(budget0, attempts, secondsPerParticle, bound);
        spawned := SpawnCounted(currentTime, jitter, n0, spawned, live0, slots0);
        timeSinceEmit := timeSinceEmit - secondsPerParticle;
        attempts := attempts + 1;
      }
    }

    /** The upload of Update (Emitter.cpp:141-155): the records copied into
        the mapped particle buffer, in buffer order. */
    method PackForUpload() returns (upload: seq<Particle>)
      requires Valid()
      ensures upload == Packed(particles[..], firstAliveIndex, firstDeadIndex, numAliveParticles)
      ensures firstAliveIndex < firstDeadIndex ==> upload == Live()
      ensures firstAliveIndex >= firstDeadIndex && numAliveParticles > 0 ==>
        upload == Live()[maxParticles - firstAliveIndex..] + Live()[..maxParticles - firstAliveIndex]
      ensures |upload| == if numAliveParticles == 0 then maxParticles else numAliveParticles
      ensures numAliveParticles > 0 ==> multiset(upload) == multiset(Live())
    {
      PackedLayout(particles[..], firstAliveIndex, firstDeadIndex, numAliveParticles);
      if firstAliveIndex < firstDeadIndex {
        upload := particles[firstAliveIndex..firstAliveIndex + numAliveParticles];
      } else {
        upload := particles[..firstDeadIndex] + particles[firstAliveIndex..maxParticles];
      }
    }

    /** The emitter after one frame's Update from the live list `live0` and
        the spawn budget `budget0`: `retired` is the number of expired
        records among `live0`, which leave from its old end; the survivors
        are followed by the run of fresh spawns; `attempts` whole intervals
        were drained from the budget, the last attempt leaving it positive;
        and a spawn succeeded while the ring had room. */
    ghost predicate SteppedFrom(live0: seq<Particle>, budget0: real, dt: real, currentTime: real,
                                jitter: nat -> Jitter, retired: nat, attempts: nat, spawned: nat)
      reads this, particles
    {
      && Valid()
      && retired == ExpiredCount(live0, currentTime, lifetime)
      && retired <= |live0|
      && SpawnedAfter(Live(), live0[retired..], currentTime, emitterPosition, shape, jitter)
      && numAliveParticles == |live0| - retired + spawned
      && spawned == Min(attempts, maxParticles - (|live0| - retired))
      && timeSinceEmit <= secondsPerParticle
      && Charged(timeSinceEmit, budget0, dt, attempts, secondsPerParticle)
      && (attempts > 0 ==> timeSinceEmit > 0.0)
    }

    /** One frame of the emitter: age, spawn what is due, pack for upload. */
    method Update(dt: real, currentTime: real, jitter: nat -> Jitter)
      returns (upload: seq<Particle>, ghost retired: nat, attempts: nat, spawned: nat)
      requires Valid()
      modifies particles, this`firstAliveIndex, this`firstDeadIndex, this`numAliveParticles, this`timeSinceEmit
      ensures SteppedFrom(old(Live()), old(timeSinceEmit), dt, currentTime, jitter, retired, attempts, spawned)
      ensures upload == Packed(particles[..], firstAliveIndex, firstDeadIndex, numAliveParticles)
      ensures numAliveParticles > 0 ==> |upload| == numAliveParticles && multiset(upload) == multiset(Live())
      ensures DeadKept(particles[..], old(particles[..]), firstAliveIndex, numAliveParticles)
    {
      ghost var live0, budget0, slots0 := Live(), timeSinceEmit, particles[..];
      retired := Age(currentTime);
      assert particles[..] == slots0;
      assert Live() == live0[retired..];
      attempts, spawned := EmitDue(dt, currentTime, jitter);
      assert SteppedFrom(live0, budget0, dt, currentTime, jitter, retired, attempts, spawned);
      assert DeadKept(particles[..], slots0, firstAliveIndex, numAliveParticles);
      upload := PackForUpload();
    }

    /** Draw: the number of indices the indexed draw issues. */
    method Draw() returns (indexCount: int)
      requires Valid()
      ensures indexCount == numAliveParticles * 6
      ensures 0 <= indexCount <= |indexData|
    {
      indexCount := numAliveParticles * 6;
    }

    method SetPosition(newPos: Vec3)
      modifies this`emitterPosition
      ensures emitterPosition == newPos
    {
      emitterPosition := newPos;
    }
  }
}
