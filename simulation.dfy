/** The simulation core: bodies (`Planet`), one body's update against the
    live list (gravity, black-hole absorption, merging, integration, trail),
    the world tick, and the interaction handlers of the main loop (grab,
    drag, throw, spawn, property edit, keys, scenario reset).

    Floats are modelled by reals. The Euclidean norm and the integer cube
    roots that give a radius are not exact in floating point, so they are
    parameters (`Physics`); the force formula itself is kept. */
module Simulation {
  import opened Vectors
  import opened Wrappers
  import opened Lists
  import opened History
  import opened Cameras
  import Stages

  const G: real := 0.05
  const DT: real := 0.5
  const THROW_MULTIPLIER: real := 0.2
  /** The number of past positions a trail keeps. */
  const TRAIL_CAP: nat := 500
  /** The number of cursor samples the drag controller keeps. */
  const DRAG_WINDOW: nat := 10

  /** The floating-point pieces the model does not compute itself:
      `norm` is `np.linalg.norm`; `massRadius(m)` is `int(m ** (1/3.0))`,
      `None` when that conversion raises (an infinite mass); `volumeRadius(a, b)`
      is `int((a**3 + b**3) ** (1/3.0))`, `None` when the integer sum of cubes
      is too large to convert to a float. */
  datatype Physics = Physics(
    norm: Vec2 -> real,
    massRadius: real -> Option<int>,
    volumeRadius: (int, int) -> Option<int>)

  /** The fields of one body, as a value. */
  datatype Body = Body(
    pos: Vec2,
    vel: Vec2,
    mass: real,
    radius: int,
    color: Stages.Rgb,
    stage: Stages.Stage,
    trail: seq<Vec2>)

  function Momentum(b: Body): Vec2 {
    Scale(b.vel, b.mass)
  }

  /** The ordinary merge of `b` into `a`: masses add, velocity and position
      become mass-weighted averages (so momentum and centre of mass are
      conserved, `MergedConservesMomentum`), the radius is the volume combination, and the stage rule
      runs on the new mass. */
  function Merged(a: Body, b: Body, radius: int): (r: Body)
    requires a.mass > 0.0 && b.mass > 0.0
    ensures r.mass == a.mass + b.mass
    ensures r.radius == radius
    ensures (r.stage, r.color) == Stages.UpdateStage(a.stage, a.color, r.mass)
    ensures Stages.Rank(r.stage) >= Stages.Rank(a.stage)
    ensures r.trail == a.trail
  {
    var newMass := a.mass + b.mass;
    var newVel := Div(Add(Scale(a.vel, a.mass), Scale(b.vel, b.mass)), newMass);
    var newPos := Div(Add(Scale(a.pos, a.mass), Scale(b.pos, b.mass)), newMass);
    var (st, col) := Stages.UpdateStage(a.stage, a.color, newMass);
    Body(newPos, newVel, newMass, radius, col, st, a.trail)
  }

  /** A merge conserves momentum and puts the merged body at the centre of
      mass of the two. (Kept apart from `Merged`'s own contract so that the
      nonlinear arithmetic stays out of every proof that only unfolds it.) */
  lemma MergedConservesMomentum(a: Body, b: Body, radius: int)
    requires a.mass > 0.0 && b.mass > 0.0
    ensures var r := Merged(a, b, radius);
            && Momentum(r) == Add(Momentum(a), Momentum(b))
            && Scale(r.pos, r.mass) == Add(Scale(a.pos, a.mass), Scale(b.pos, b.mass))
  {
  }

  /** The pull of a body of mass `mo` at offset `rVec` (distance `rMag`) on a
      body of mass `ms`: magnitude G·ms·mo/r², along `rVec`. */
  function Gravity(ms: real, mo: real, rVec: Vec2, rMag: real): Vec2
    requires rMag > 0.0
  {
    Div(Scale(rVec, G * ms * mo / (rMag * rMag)), rMag)
  }

  /** The pull lies on the line between the two bodies and, for positive
      masses, points towards the other body. */
  lemma GravityPullsTowardsOther(ms: real, mo: real, rVec: Vec2, rMag: real)
    requires rMag > 0.0
    ensures var f := Gravity(ms, mo, rVec, rMag);
            && f.x * rVec.y == f.y * rVec.x
            && (ms > 0.0 && mo > 0.0 ==> f.x * rVec.x + f.y * rVec.y >= 0.0)
  {
  }

  /** The two bodies of a pair pull on each other with opposite forces. */
  lemma GravityIsMutual(ms: real, mo: real, rVec: Vec2, rMag: real)
    requires rMag > 0.0
    ensures Add(Gravity(ms, mo, rVec, rMag), Gravity(mo, ms, Sub(Zero, rVec), rMag)) == Zero
  {
  }

  /** The end of an update: semi-implicit Euler (velocity first, then position
      with the new velocity) and the trail append with its bound. */
  function Advance(b: Body, force: Vec2): (r: Body)
    requires b.mass > 0.0
    ensures Scale(Sub(r.vel, b.vel), b.mass) == Scale(force, DT)
    ensures Sub(r.pos, b.pos) == Scale(r.vel, DT)
    ensures |r.trail| > 0 && r.trail[|r.trail| - 1] == r.pos
    ensures |b.trail| <= TRAIL_CAP ==> |r.trail| <= TRAIL_CAP
    ensures |b.trail| < TRAIL_CAP ==> r.trail == b.trail + [r.pos]
    ensures |b.trail| >= TRAIL_CAP ==> r.trail == b.trail[1..] + [r.pos]
    ensures r.mass == b.mass && r.radius == b.radius && r.stage == b.stage && r.color == b.color
  {
    var vel := Add(b.vel, Scale(Div(force, b.mass), DT));
    var pos := Add(b.pos, Scale(vel, DT));
    b.(vel := vel, pos := pos, trail := Push(b.trail, pos, TRAIL_CAP))
  }

  /** The state of one body's pass over the live list: its own fields so far,
      the list as it is now, the index the list iterator reads next, the
      force summed so far, and whether the pass has raised. */
  datatype Scanning = Scanning(self: Body, live: seq<Planet>, next: nat, force: Vec2, raised: bool)

  /** One iteration of the inner loop of `Planet.update`, for the element at
      index `next`. Python's list iterator only moves its index forward, so
      when `other` is removed the element after it is skipped. */
  function Step(me: Planet, st: Scanning, phys: Physics): (r: Scanning)
    reads set q | q in st.live && q != me
    requires !st.raised && st.next < |st.live|
    requires st.self.mass > 0.0
    requires forall q :: q in st.live && q != me ==> q.mass > 0.0
    ensures r.next == st.next + 1
    ensures r.self.mass >= st.self.mass
    ensures Stages.Rank(r.self.stage) >= Stages.Rank(st.self.stage)
    ensures r.self.trail == st.self.trail
    ensures r.live == st.live
         || (st.live[st.next] != me && r.live == RemoveFirst(st.live, st.live[st.next]))
    ensures r.live != st.live ==> r.self.mass == st.self.mass + st.live[st.next].mass
    ensures r.live == st.live && !r.raised ==> r.self.mass == st.self.mass
  {
    var other := st.live[st.next];
    if other == me then
      st.(next := st.next + 1)
    else if InHorizon(st.self, other.State(), phys) then
      Absorbed(st, other, other.State(), phys)
    else
      Attracted(st, other, other.State(), phys)
  }

  /** Whether a body with fields `o` lies inside the event horizon of `s`. */
  predicate InHorizon(s: Body, o: Body, phys: Physics) {
    s.stage == Stages.BlackHole && phys.norm(Sub(o.pos, s.pos)) < s.radius as real
  }

  /** The event-horizon branch of `Step`: absorb `other` (whose fields are
      `o`) whatever the masses; no force from this pair. */
  function Absorbed(st: Scanning, other: Planet, o: Body, phys: Physics): Scanning
    requires st.next < |st.live| && other == st.live[st.next]
  {
    var m := st.self.mass + o.mass;
    match phys.massRadius(m)
    case None => st.(self := st.self.(mass := m), next := st.next + 1, raised := true)
    case Some(rad) =>
      st.(self := st.self.(mass := m, radius := rad), live := RemoveFirst(st.live, other), next := st.next + 1)
  }

  /** The other branch of `Step`: add the pull of `other` (whose fields are
      `o`), then merge it in when the two overlap and `st.self` is the
      heavier. */
  function Attracted(st: Scanning, other: Planet, o: Body, phys: Physics): Scanning
    requires st.next < |st.live| && other == st.live[st.next]
    requires st.self.mass > 0.0 && o.mass > 0.0
  {
    var s := st.self;
    var rVec := Sub(o.pos, s.pos);
    var rMag := phys.norm(rVec);
    var force := if rMag > 0.0 then Add(st.force, Gravity(s.mass, o.mass, rVec, rMag)) else st.force;
    if rMag > 0.0 && rMag < (s.radius + o.radius) as real && s.mass >= o.mass && other in st.live then
      match phys.volumeRadius(s.radius, o.radius)
      case None => st.(next := st.next + 1, force := force, raised := true)
      case Some(rad) => Scanning(Merged(s, o, rad), RemoveFirst(st.live, other), st.next + 1, force, false)
    else
      st.(next := st.next + 1, force := force)
  }

  /** The whole inner loop of `Planet.update`, from `st` to the end of the
      list or to the first exception. Bodies only leave the list, and `me`
      stays in it if it was there. */
  function Scan(me: Planet, st: Scanning, phys: Physics): (r: Scanning)
    reads set q | q in st.live && q != me
    requires st.self.mass > 0.0
    requires forall q :: q in st.live && q != me ==> q.mass > 0.0
    ensures r.raised || r.next >= |r.live|
    ensures r.self.mass >= st.self.mass
    ensures Stages.Rank(r.self.stage) >= Stages.Rank(st.self.stage)
    ensures r.self.trail == st.self.trail
    ensures forall q :: q in r.live ==> q in st.live
    ensures me in st.live ==> me in r.live
    ensures NoDup(st.live) ==> NoDup(r.live)
    decreases |st.live| - st.next
  {
    if st.raised || st.next >= |st.live| then st
    else
      var st' := Step(me, st, phys);
      RemoveFirstFacts(st.live, st.live[st.next]);
      Scan(me, st', phys)
  }

  /** The event-horizon rule: a BLACK_HOLE absorbs any other body closer than
      its radius (distance 0 included), whatever the two masses. Its mass
      grows by exactly the other's, the pair adds no force, and the other
      body leaves the list unless the radius computation raises. */
  lemma EventHorizonRule(me: Planet, st: Scanning, phys: Physics)
    requires !st.raised && st.next < |st.live|
    requires st.self.mass > 0.0
    requires forall q :: q in st.live && q != me ==> q.mass > 0.0
    requires st.live[st.next] != me
    requires st.self.stage == Stages.BlackHole
    requires phys.norm(Sub(st.live[st.next].pos, st.self.pos)) < st.self.radius as real
    ensures var r := Step(me, st, phys);
            var other := st.live[st.next];
            && r.self.mass == st.self.mass + other.mass
            && r.force == st.force
            && r.self.stage == Stages.BlackHole
            && (r.raised <==> phys.massRadius(r.self.mass).None?)
            && (!r.raised ==> r.live == RemoveFirst(st.live, other))
            && (!r.raised && NoDup(st.live) ==> other !in r.live)
  {
    var other := st.live[st.next];
    var m := st.self.mass + other.mass;
    assert Step(me, st, phys) == Absorbed(st, other, other.State(), phys);
    match phys.massRadius(m) {
      case None =>
        assert Step(me, st, phys) == st.(self := st.self.(mass := m), next := st.next + 1, raised := true);
      case Some(rad) =>
        RemoveFirstFacts(st.live, other);
        assert Step(me, st, phys)
            == st.(self := st.self.(mass := m, radius := rad), live := RemoveFirst(st.live, other), next := st.next + 1);
    }
  }

  /** The ordinary merge rule, for a pair the event horizon does not decide:
      the pull of the other body is added whenever the distance is positive;
      the other body is merged in and removed exactly when it is at a
      positive distance below the sum of the radii, no heavier than this
      body, and the combined radius can be computed; where that computation
      raises, the pass stops with this body unchanged. */
  lemma MergeRule(me: Planet, st: Scanning, phys: Physics)
    requires !st.raised && st.next < |st.live|
    requires st.self.mass > 0.0
    requires forall q :: q in st.live && q != me ==> q.mass > 0.0
    requires st.live[st.next] != me
    requires !(st.self.stage == Stages.BlackHole
               && phys.norm(Sub(st.live[st.next].pos, st.self.pos)) < st.self.radius as real)
    ensures var r := Step(me, st, phys);
            var other := st.live[st.next];
            var rVec := Sub(other.pos, st.self.pos);
            var rMag := phys.norm(rVec);
            var touching := 0.0 < rMag < (st.self.radius + other.radius) as real && st.self.mass >= other.mass;
            var rad := phys.volumeRadius(st.self.radius, other.radius);
            && r.force == (if rMag > 0.0 then Add(st.force, Gravity(st.self.mass, other.mass, rVec, rMag)) else st.force)
            && (r.raised <==> touching && rad.None?)
            && (r.live != st.live <==> touching && rad.Some?)
            && (r.live != st.live ==>
                 r.self == Merged(st.self, other.State(), rad.value) && r.live == RemoveFirst(st.live, other))
            && (r.live == st.live ==> r.self == st.self)
  {
    var other := st.live[st.next];
    RemoveFirstFacts(st.live, other);
    assert Step(me, st, phys) == Attracted(st, other, other.State(), phys);
  }

  /** A body that is no longer in the list (absorbed earlier in the same
      tick) can still absorb one that is: a stale BLACK_HOLE empties the list
      [other], so the list loses all of its mass and nothing in it gains any. */
  lemma StaleBlackHoleEmptiesList(me: Planet, other: Planet, phys: Physics)
    requires me != other && me.mass > 0.0 && other.mass > 0.0
    requires me.stage == Stages.BlackHole
    requires phys.norm(Sub(other.pos, me.pos)) < me.radius as real
    requires phys.massRadius(me.mass + other.mass).Some?
    ensures var r := Scan(me, Scanning(me.State(), [other], 0, Zero, false), phys);
            && !r.raised && r.live == []
            && TotalMass([other]) == other.mass && TotalMass(r.live) == 0.0
  {
    var st := Scanning(me.State(), [other], 0, Zero, false);
    var st' := Step(me, st, phys);
    assert st'.live == [];
  }

  /** The total mass of the bodies in `live`, reading `m` for `me` (the body
      being updated, whose fields are in flight) and the heap for the rest. */
  function LiveMass(live: seq<Planet>, me: Planet, m: real): real
    reads set q | q in live && q != me
  {
    if live == [] then 0.0
    else (if live[0] == me then m else live[0].mass) + LiveMass(live[1..], me, m)
  }

  /** The total mass of the bodies in a list, read from the heap. */
  function TotalMass(live: seq<Planet>): real
    reads set q | q in live
  {
    if live == [] then 0.0 else live[0].mass + TotalMass(live[1..])
  }

  lemma {:induction false} TotalIsLiveMass(live: seq<Planet>, me: Planet)
    ensures TotalMass(live) == LiveMass(live, me, me.mass)
  {
    if live != [] {
      TotalIsLiveMass(live[1..], me);
    }
  }

  lemma {:induction false} LiveMassWithoutMe(live: seq<Planet>, me: Planet, m1: real, m2: real)
    requires me !in live
    ensures LiveMass(live, me, m1) == LiveMass(live, me, m2)
  {
    if live != [] {
      LiveMassWithoutMe(live[1..], me, m1, m2);
    }
  }

  /** With `me` in the list exactly once, adding `d` to its mass adds `d` to the total. */
  lemma {:induction false} LiveMassShift(live: seq<Planet>, me: Planet, m: real, d: real)
    requires NoDup(live) && me in live
    ensures LiveMass(live, me, m + d) == LiveMass(live, me, m) + d
  {
    if live[0] == me {
      assert me !in live[1..];
      LiveMassWithoutMe(live[1..], me, m + d, m);
    } else {
      LiveMassShift(live[1..], me, m, d);
    }
  }

  /** Removing one occurrence of another body takes exactly its mass away. */
  lemma {:induction false} LiveMassRemove(live: seq<Planet>, me: Planet, m: real, x: Planet)
    requires x in live && x != me
    ensures LiveMass(live, me, m) == LiveMass(RemoveFirst(live, x), me, m) + x.mass
  {
    if live[0] != x {
      LiveMassRemove(live[1..], me, m, x);
      assert RemoveFirst(live, x)[1..] == RemoveFirst(live[1..], x);
    }
  }

  /** Moving another body's mass onto `me` and removing that body leaves the
      total unchanged. */
  lemma RemovalConservesMass(live: seq<Planet>, me: Planet, m: real, x: Planet)
    requires NoDup(live) && me in live && x in live && x != me
    ensures LiveMass(RemoveFirst(live, x), me, m + x.mass) == LiveMass(live, me, m)
  {
    RemoveFirstFacts(live, x);
    LiveMassShift(RemoveFirst(live, x), me, m, x.mass);
    LiveMassRemove(live, me, m, x);
  }

  /** One step of the scan moves mass between `me` and the list without
      creating or losing any, unless it raises. */
  lemma StepConservesMass(me: Planet, st: Scanning, phys: Physics)
    requires !st.raised && st.next < |st.live|
    requires st.self.mass > 0.0
    requires forall q :: q in st.live && q != me ==> q.mass > 0.0
    requires NoDup(st.live) && me in st.live
    ensures var r := Step(me, st, phys);
            !r.raised ==> LiveMass(r.live, me, r.self.mass) == LiveMass(st.live, me, st.self.mass)
  {
    var r := Step(me, st, phys);
    if !r.raised {
      if r.live != st.live {
        var x := st.live[st.next];
        assert x != me && r.live == RemoveFirst(st.live, x) && r.self.mass == st.self.mass + x.mass;
        RemovalConservesMass(st.live, me, st.self.mass, x);
      } else {
        assert r.self.mass == st.self.mass;
      }
    }
  }

  /** Mass conservation of one body's update: when the updated body is in the
      list (once) and nothing raises, the list's total mass, counting the
      body's new mass, equals the total before. */
  lemma {:induction false} ScanConservesMass(me: Planet, st: Scanning, phys: Physics)
    requires st.self.mass > 0.0
    requires forall q :: q in st.live && q != me ==> q.mass > 0.0
    requires NoDup(st.live) && me in st.live
    ensures var r := Scan(me, st, phys);
            !r.raised ==> LiveMass(r.live, me, r.self.mass) == LiveMass(st.live, me, st.self.mass)
    decreases |st.live| - st.next
  {
    if !st.raised && st.next < |st.live| {
      var st' := Step(me, st, phys);
      StepConservesMass(me, st, phys);
      RemoveFirstFacts(st.live, st.live[st.next]);
      if !st'.raised {
        ScanConservesMass(me, st', phys);
      }
    }
  }

  /** The body's trail ends at its position, as it does right after an
      update that advanced it. */
  predicate EndsTrail(p: Planet)
    reads p
  {
    |p.trail| > 0 && p.trail[|p.trail| - 1] == p.pos
  }

  /** The keys the main loop reacts to outside the input boxes. */
  datatype KeyPress = SpaceKey | DeleteKey | UpKey | DownKey | OtherKeyPress

  /** A left click at `cursor` (screen coordinates) hits body `p`: the
      distance on screen is below the drawn radius plus a 5-pixel margin,
      so a click on the drawn centre of a body hits it however small it is. */
  predicate UnderCursor(p: Planet, zoom: real, offset: Vec2, cursor: Vec2, norm: Vec2 -> real): (hit: bool)
    reads p
    ensures (norm(Zero) == 0.0 && zoom >= 0.0 && p.radius >= 0
             && cursor == WorldToScreen(zoom, offset, p.pos)) ==> hit
  {
    norm(Sub(WorldToScreen(zoom, offset, p.pos), cursor)) < p.radius as real * zoom + 5.0
  }

  /** The velocity given to a released body: the world-space displacement
      between the oldest and newest cursor samples, times THROW_MULTIPLIER
      and 5. */
  function ThrowVelocity(zoom: real, offset: Vec2, samples: seq<Vec2>): (v: Vec2)
    requires zoom != 0.0 && |samples| > 1
    ensures v == Div(Sub(samples[|samples| - 1], samples[0]), zoom)
  {
    var start := ScreenToWorld(zoom, offset, samples[0]);
    var end := ScreenToWorld(zoom, offset, samples[|samples| - 1]);
    Scale(Scale(Sub(end, start), THROW_MULTIPLIER), 5.0)
  }

  function Max(a: int, b: int): int {
    if a >= b then a else b
  }

  class Planet {
    var pos: Vec2
    var vel: Vec2
    var mass: real
    var radius: int
    var color: Stages.Rgb
    var trail: seq<Vec2>
    var stage: Stages.Stage

    function State(): Body
      reads this
    {
      Body(pos, vel, mass, radius, color, stage, trail)
    }

    /** A new body starts as a PLANET with an empty trail and at once runs the
        stage rule, so a heavy body is created in its proper stage. The
        caller supplies the radius. */
    constructor (x: real, y: real, vx: real, vy: real, mass: real, color: Stages.Rgb, radius: int)
      ensures pos == Vec2(x, y) && vel == Vec2(vx, vy)
      ensures this.mass == mass && this.radius == radius && trail == []
      ensures (stage, this.color) == Stages.UpdateStage(Stages.Planet, color, mass)
    {
      pos := Vec2(x, y);
      vel := Vec2(vx, vy);
      this.mass := mass;
      this.radius := radius;
      this.color := color;
      trail := [];
      stage := Stages.Planet;
      new;
      UpdateStage();
    }

    /** `update_stage`, writing the stage and colour. */
    method UpdateStage()
      modifies this
      ensures (stage, color) == Stages.UpdateStage(old(stage), old(color), mass)
      ensures pos == old(pos) && vel == old(vel) && mass == old(mass)
      ensures radius == old(radius) && trail == old(trail)
    {
      var (s, c) := Stages.UpdateStage(stage, color, mass);
      stage, color := s, c;
    }

    /** `update`: one body's step within a tick. The held body only has its
        velocity zeroed. Any other body scans the live list as `Scan`
        describes, removing what it absorbs or merges, and then moves and
        extends its trail as `Advance` describes. The result is true where
        the program raises an exception; the fields changed before that
        point keep their new values. */
    method Update(world: World, phys: Physics) returns (raised: bool)
      requires mass > 0.0
      requires forall q :: q in world.planets && q != this ==> q.mass > 0.0
      modifies this, world`planets
      ensures world.dragging == this ==>
                !raised && world.planets == old(world.planets) && State() == old(State()).(vel := Zero)
      ensures world.dragging != this ==>
                var r := old(Scan(this, Scanning(State(), world.planets, 0, Zero, false), phys));
                && raised == r.raised
                && world.planets == r.live
                && State() == if r.raised then r.self else Advance(r.self, r.force)
      ensures mass >= old(mass)
      ensures old(|trail|) <= TRAIL_CAP ==> |trail| <= TRAIL_CAP
      ensures forall q :: q in world.planets ==> q in old(world.planets)
      ensures old(NoDup(world.planets)) ==> NoDup(world.planets)
    {
      if world.dragging == this {
        vel := Zero;
        return false;
      }
      var total;
      total, raised := ScanLive(world, phys);
      if !raised {
        vel := Add(vel, Scale(Div(total, mass), DT));
        pos := Add(pos, Scale(vel, DT));
        trail := Push(trail, pos, TRAIL_CAP);
      }
    }

    /** The inner `for other in planets` loop of `update`, over the live list
        while it shrinks. Stops early where the program raises. */
    method ScanLive(world: World, phys: Physics) returns (total: Vec2, raised: bool)
      requires mass > 0.0
      requires forall q :: q in world.planets && q != this ==> q.mass > 0.0
      modifies this, world`planets
      ensures var r := old(Scan(this, Scanning(State(), world.planets, 0, Zero, false), phys));
              && raised == r.raised
              && world.planets == r.live
              && State() == r.self
              && total == r.force
    {
      ghost var spec := Scan(this, Scanning(State(), world.planets, 0, Zero, false), phys);
      total := Zero;
      raised := false;
      var i := 0;
      while i < |world.planets| && !raised
        invariant mass > 0.0
        invariant forall q :: q in world.planets && q != this ==> q.mass > 0.0
        invariant Scan(this, Scanning(State(), world.planets, i, total, raised), phys) == spec
      {
        total, raised := ScanStep(world, i, total, phys);
        i := i + 1;
      }
      assert Scan(this, Scanning(State(), world.planets, i, total, raised), phys)
          == Scanning(State(), world.planets, i, total, raised);
    }

    /** One turn of `ScanLive`'s loop: `Interact` on index `i`, after which
        the rest of the scan from index `i + 1` ends where the scan from
        index `i` did. */
    method ScanStep(world: World, i: nat, total: Vec2, phys: Physics) returns (total': Vec2, raised: bool)
      requires i < |world.planets|
      requires mass > 0.0
      requires forall q :: q in world.planets && q != this ==> q.mass > 0.0
      modifies this, world`planets
      ensures mass > 0.0
      ensures forall q :: q in world.planets && q != this ==> q.mass > 0.0
      ensures |world.planets| <= old(|world.planets|)
      ensures Scan(this, Scanning(State(), world.planets, i + 1, total', raised), phys)
           == old(Scan(this, Scanning(State(), world.planets, i, total, false), phys))
    {
      ghost var cur := Scanning(State(), world.planets, i, total, false);
      ghost var next := Step(this, cur, phys);
      RemoveFirstFacts(world.planets, world.planets[i]);
      assert Scan(this, cur, phys) == Scan(this, next, phys);
      total', raised := Interact(world, i, total, phys);
    }

    /** One iteration of the inner loop of `update`, on the element at index
        `i` of the live list: the black-hole absorption, the force, the
        ordinary merge. */
    method Interact(world: World, i: nat, total: Vec2, phys: Physics) returns (total': Vec2, raised: bool)
      requires i < |world.planets|
      requires mass > 0.0
      requires forall q :: q in world.planets && q != this ==> q.mass > 0.0
      modifies this, world`planets
      ensures Scanning(State(), world.planets, i + 1, total', raised)
           == old(Step(this, Scanning(State(), world.planets, i, total, false), phys))
      ensures mass >= old(mass)
      ensures forall q :: q in world.planets ==> q in old(world.planets)
    {
      total', raised := total, false;
      var other := world.planets[i];
      if other == this {
        return;
      }
      var rMag := phys.norm(Sub(other.pos, pos));
      if stage == Stages.BlackHole && rMag < radius as real {
        raised := AbsorbAt(world, i, total, phys);
      } else {
        total', raised := AttractAt(world, i, total, phys);
      }
    }

    /** `Interact` on another body inside this black hole's event horizon. */
    method AbsorbAt(world: World, i: nat, total: Vec2, phys: Physics) returns (raised: bool)
      requires i < |world.planets| && world.planets[i] != this
      requires stage == Stages.BlackHole && phys.norm(Sub(world.planets[i].pos, pos)) < radius as real
      requires mass > 0.0
      requires forall q :: q in world.planets && q != this ==> q.mass > 0.0
      modifies this, world`planets
      ensures Scanning(State(), world.planets, i + 1, total, raised)
           == old(Step(this, Scanning(State(), world.planets, i, total, false), phys))
      ensures mass >= old(mass)
      ensures forall q :: q in world.planets ==> q in old(world.planets)
    {
      var other := world.planets[i];
      RemoveFirstFacts(world.planets, other);
      ghost var st := Scanning(State(), world.planets, i, total, false);
      ghost var m := st.self.mass + other.mass;
      ghost var r0 := phys.massRadius(m);
      ghost var expected := Step(this, st, phys);
      assert expected == Absorbed(st, other, other.State(), phys);
      raised := Absorb(world, other, phys);
      assert mass == m;
      assert phys.massRadius(mass) == r0;
      assert raised == expected.raised && world.planets == expected.live;
      assert State() == expected.self;
    }

    /** `Interact` on another body outside any event horizon: the pull, then
        the merge when the two overlap and this body is the heavier. */
    method AttractAt(world: World, i: nat, total: Vec2, phys: Physics) returns (total': Vec2, raised: bool)
      requires i < |world.planets| && world.planets[i] != this
      requires !(stage == Stages.BlackHole && phys.norm(Sub(world.planets[i].pos, pos)) < radius as real)
      requires mass > 0.0
      requires forall q :: q in world.planets && q != this ==> q.mass > 0.0
      modifies this, world`planets
      ensures Scanning(State(), world.planets, i + 1, total', raised)
           == old(Step(this, Scanning(State(), world.planets, i, total, false), phys))
      ensures mass >= old(mass)
      ensures forall q :: q in world.planets ==> q in old(world.planets)
    {
      var other := world.planets[i];
      RemoveFirstFacts(world.planets, other);
      ghost var st := Scanning(State(), world.planets, i, total, false);
      ghost var expected := Step(this, st, phys);
      assert expected == Attracted(st, other, other.State(), phys);
      var rVec := Sub(other.pos, pos);
      var rMag := phys.norm(rVec);
      total', raised := total, false;
      if rMag > 0.0 {
        total' := Add(total, Gravity(mass, other.mass, rVec, rMag));
      }
      if rMag > 0.0 && rMag < (radius + other.radius) as real && mass >= other.mass && other in world.planets {
        ghost var r0 := phys.volumeRadius(radius, other.radius);
        raised := MergeWith(world, other, phys);
        assert phys.volumeRadius(old(radius), other.radius) == r0;
      }
    }

    /** The event-horizon branch: take the other body's mass, recompute the
        radius from the new mass, remove the other body. */
    method Absorb(world: World, other: Planet, phys: Physics) returns (raised: bool)
      requires other != this && other in world.planets
      modifies this, world`planets
      ensures mass == old(mass) + other.mass
      ensures raised == phys.massRadius(mass).None?
      ensures raised ==> radius == old(radius) && world.planets == old(world.planets)
      ensures !raised ==>
                radius == phys.massRadius(mass).value && world.planets == RemoveFirst(old(world.planets), other)
      ensures pos == old(pos) && vel == old(vel) && stage == old(stage)
      ensures color == old(color) && trail == old(trail)
    {
      mass := mass + other.mass;
      var rad := phys.massRadius(mass);
      if rad.None? {
        return true;
      }
      radius := rad.value;
      if other in world.planets {
        world.planets := RemoveFirst(world.planets, other);
      }
      return false;
    }

    /** The ordinary merge branch: this body becomes `Merged` of itself and the
        other body, which leaves the list. */
    method MergeWith(world: World, other: Planet, phys: Physics) returns (raised: bool)
      requires other != this && other in world.planets
      requires mass > 0.0 && other.mass > 0.0
      modifies this, world`planets
      ensures raised <==> phys.volumeRadius(old(radius), other.radius).None?
      ensures raised ==> State() == old(State()) && world.planets == old(world.planets)
      ensures !raised ==>
                && State() == Merged(old(State()), other.State(), phys.volumeRadius(old(radius), other.radius).value)
                && world.planets == RemoveFirst(old(world.planets), other)
    {
      var newMass := mass + other.mass;
      var rad := phys.volumeRadius(radius, other.radius);
      if rad.None? {
        return true;
      }
      radius := rad.value;
      var newVel := Div(Add(Scale(vel, mass), Scale(other.vel, other.mass)), newMass);
      var newPos := Div(Add(Scale(pos, mass), Scale(other.pos, other.mass)), newMass);
      mass := newMass;
      vel := newVel;
      pos := newPos;
      UpdateStage();
      world.planets := RemoveFirst(world.planets, other);
      return false;
    }
    /** The three lines the program repeats after changing a body's mass by
        hand: set the mass, recompute the radius from it (floored at 2 when
        `clampRadius`), run the stage rule. True where the radius
        computation raises. */
    method SetMass(m: real, clampRadius: bool, phys: Physics) returns (raised: bool)
      modifies this
      ensures mass == m
      ensures raised <==> phys.massRadius(m).None?
      ensures raised ==> radius == old(radius) && stage == old(stage) && color == old(color)
      ensures !raised ==>
                && radius == (if clampRadius then Max(2, phys.massRadius(m).value) else phys.massRadius(m).value)
                && (stage, color) == Stages.UpdateStage(old(stage), old(color), m)
      ensures pos == old(pos) && vel == old(vel) && trail == old(trail)
    {
      mass := m;
      var rad := phys.massRadius(mass);
      if rad.None? {
        return true;
      }
      radius := if clampRadius then Max(2, rad.value) else rad.value;
      UpdateStage();
      return false;
    }
  }

  class World {
    var planets: seq<Planet>
    var selected: Planet?
    var dragging: Planet?
    /** Recent cursor positions (screen coordinates) while a body is held. */
    var dragPositions: seq<Vec2>
    var paused: bool
    var scenario: string

    ghost predicate Valid()
      reads this, set q | q in planets
    {
      && NoDup(planets)
      && (forall q :: q in planets ==> q.mass > 0.0 && |q.trail| <= TRAIL_CAP)
      && |dragPositions| <= DRAG_WINDOW
    }

    constructor ()
      ensures Valid()
      ensures planets == [] && selected == null && dragging == null
      ensures dragPositions == [] && !paused && scenario == ""
    {
      planets := [];
      selected := null;
      dragging := null;
      dragPositions := [];
      paused := false;
      scenario := "";
    }

    /** The index of the first body in the list under the cursor, if any. */
    method FirstUnderCursor(zoom: real, offset: Vec2, cursor: Vec2, norm: Vec2 -> real) returns (k: Option<nat>)
      ensures k.Some? ==>
                && k.value < |planets|
                && UnderCursor(planets[k.value], zoom, offset, cursor, norm)
                && forall j :: 0 <= j < k.value ==> !UnderCursor(planets[j], zoom, offset, cursor, norm)
      ensures k.None? ==> forall j :: 0 <= j < |planets| ==> !UnderCursor(planets[j], zoom, offset, cursor, norm)
    {
      var i := 0;
      while i < |planets|
        invariant 0 <= i <= |planets|
        invariant forall j :: 0 <= j < i ==> !UnderCursor(planets[j], zoom, offset, cursor, norm)
      {
        if UnderCursor(planets[i], zoom, offset, cursor, norm) {
          return Some(i);
        }
        i := i + 1;
      }
      return None;
    }

    /** Left click on the canvas: drop the selection, then select and hold
        the first body under the cursor, restarting the cursor samples. */
    method Grab(cam: Camera, cursor: Vec2, norm: Vec2 -> real)
      requires Valid()
      modifies this`selected, this`dragging, this`dragPositions
      ensures Valid()
      ensures selected == dragging
      ensures dragging == null <==>
                forall j :: 0 <= j < |planets| ==> !UnderCursor(planets[j], cam.zoom, cam.offset, cursor, norm)
      ensures dragging != null ==>
                && dragging in planets
                && UnderCursor(dragging, cam.zoom, cam.offset, cursor, norm)
                && (forall j :: 0 <= j < IndexOf(planets, dragging) ==>
                      !UnderCursor(planets[j], cam.zoom, cam.offset, cursor, norm))
                && dragPositions == [cursor]
      ensures dragging == null ==> dragPositions == old(dragPositions)
    {
      selected := null;
      dragging := null;
      var k := FirstUnderCursor(cam.zoom, cam.offset, cursor, norm);
      if k.Some? {
        selected := planets[k.value];
        dragging := planets[k.value];
        dragPositions := [cursor];
        assert IndexOf(planets, dragging) == k.value;
      }
    }

    /** Once per frame while a body is held: it sits under the cursor and the
        cursor position joins the samples (the newest 10 are kept). */
    method DragFrame(cam: Camera, cursor: Vec2)
      requires Valid() && cam.Valid()
      modifies this`dragPositions, dragging
      ensures Valid()
      ensures dragging == null ==> dragPositions == old(dragPositions)
      ensures dragging != null ==>
                && dragging.State() == old(dragging.State()).(pos := cam.ToWorld(cursor))
                && dragPositions == Push(old(dragPositions), cursor, DRAG_WINDOW)
    {
      if dragging != null {
        dragging.pos := cam.ToWorld(cursor);
        dragPositions := Push(dragPositions, cursor, DRAG_WINDOW);
      }
    }

    /** Releasing the left button: a held body is let go, thrown with the
        velocity of the cursor samples when there are at least two. */
    method Release(cam: Camera)
      requires Valid() && cam.Valid()
      modifies this`dragging, dragging
      ensures Valid()
      ensures dragging == null
      ensures old(dragging) != null && |dragPositions| > 1 ==>
                old(dragging).State() == old(dragging.State()).(vel := Div(Sub(dragPositions[|dragPositions| - 1], dragPositions[0]), cam.zoom))
      ensures old(dragging) != null && |dragPositions| <= 1 ==>
                old(dragging).State() == old(dragging.State())
    {
      if dragging != null {
        if |dragPositions| > 1 {
          dragging.vel := ThrowVelocity(cam.zoom, cam.offset, dragPositions);
        }
        dragging := null;
      }
    }

    /** Right click: a new body at rest under the cursor, with the given mass
        (drawn between 200 and 500) and colour, appended to the list. True
        where the radius computation raises, and then nothing is added. */
    method Spawn(cam: Camera, cursor: Vec2, mass: real, color: Stages.Rgb, phys: Physics) returns (raised: bool)
      requires Valid() && cam.Valid()
      requires 200.0 <= mass <= 500.0
      modifies this`planets
      ensures Valid()
      ensures raised <==> phys.massRadius(mass).None?
      ensures raised ==> planets == old(planets)
      ensures !raised ==>
                && |planets| == |old(planets)| + 1
                && planets[..|old(planets)|] == old(planets)
                && fresh(planets[|planets| - 1])
                && planets[|planets| - 1].State()
                   == Body(cam.ToWorld(cursor), Zero, mass, phys.massRadius(mass).value, color, Stages.Planet, [])
    {
      var rad := phys.massRadius(mass);
      if rad.None? {
        return true;
      }
      var w := cam.ToWorld(cursor);
      var p := new Planet(w.x, w.y, 0.0, 0.0, mass, color, rad.value);
      planets := planets + [p];
      return false;
    }

    /** Enter in a property box while paused: the parsed value (`None` where
        the text is not a number) is written to the selected body. A mass
        that is not positive keeps the old mass, but the radius and stage are
        recomputed either way. True where the radius computation raises;
        that exception escapes the handler. */
    method EditProperty(prop: string, parsed: Option<real>, phys: Physics) returns (raised: bool)
      requires Valid() && selected != null
      modifies selected
      ensures Valid()
      ensures prop !in ["mass", "pos_x", "pos_y", "vel_x", "vel_y"] || parsed.None? ==>
                !raised && selected.State() == old(selected.State())
      ensures prop == "mass" && parsed.Some? ==>
                var m := if parsed.value > 0.0 then parsed.value else old(selected.mass);
                && selected.mass == m
                && (raised <==> phys.massRadius(m).None?)
                && (raised ==> selected.radius == old(selected.radius) && selected.stage == old(selected.stage)
                               && selected.color == old(selected.color))
                && (!raised ==> selected.radius == Max(2, phys.massRadius(m).value)
                                && (selected.stage, selected.color)
                                   == Stages.UpdateStage(old(selected.stage), old(selected.color), m))
                && selected.pos == old(selected.pos) && selected.vel == old(selected.vel)
                && selected.trail == old(selected.trail)
      ensures prop == "pos_x" && parsed.Some? ==>
                !raised && selected.State() == old(selected.State()).(pos := Vec2(parsed.value, old(selected.pos.y)))
      ensures prop == "pos_y" && parsed.Some? ==>
                !raised && selected.State() == old(selected.State()).(pos := Vec2(old(selected.pos.x), parsed.value))
      ensures prop == "vel_x" && parsed.Some? ==>
                !raised && selected.State() == old(selected.State()).(vel := Vec2(parsed.value, old(selected.vel.y)))
      ensures prop == "vel_y" && parsed.Some? ==>
                !raised && selected.State() == old(selected.State()).(vel := Vec2(old(selected.vel.x), parsed.value))
    {
      raised := false;
      if parsed.None? {
        return;
      }
      var v := parsed.value;
      if prop == "mass" {
        raised := selected.SetMass(if v > 0.0 then v else selected.mass, true, phys);
      } else if prop == "pos_x" {
        selected.pos := Vec2(v, selected.pos.y);
      } else if prop == "pos_y" {
        selected.pos := Vec2(selected.pos.x, v);
      } else if prop == "vel_x" {
        selected.vel := Vec2(v, selected.vel.y);
      } else if prop == "vel_y" {
        selected.vel := Vec2(selected.vel.x, v);
      }
    }

    /** Delete as the program does it: `planets.remove(selected)`, which
        raises (and ends the program) when the selected body has already left
        the list, absorbed or merged into another. */
    method DeleteSelectedAsWritten() returns (raised: bool)
      requires Valid() && selected != null
      modifies this`planets, this`selected
      ensures Valid()
      ensures raised <==> old(selected) !in old(planets)
      ensures raised ==> planets == old(planets) && selected == old(selected)
      ensures !raised ==>
                && planets == RemoveFirst(old(planets), old(selected))
                && old(selected) !in planets
                && selected == null
    {
      var s := selected;
      if s !in planets {
        return true;
      }
      RemoveFirstFacts(planets, s);
      var rest := RemoveFirst(planets, s);
      assert forall i :: 0 <= i < |rest| ==> rest[i] in planets;
      planets := rest;
      selected := null;
      return false;
    }

    /** Delete with the stale selection handled: the selected body leaves the
        list if it is still there, and the selection is dropped either way. */
    method DeleteSelected()
      requires Valid() && selected != null
      modifies this`planets, this`selected
      ensures Valid()
      ensures selected == null
      ensures old(selected) !in planets
      ensures planets == if old(selected) in old(planets) then RemoveFirst(old(planets), old(selected))
                         else old(planets)
    {
      var stale := DeleteSelectedAsWritten();
      selected := null;
    }

    /** A key press outside the input boxes. Space toggles the pause; with a
        body selected, Delete removes it as the program does (raising when
        it has already left the list), and Up and Down (only while running)
        scale its mass by 1.1 and 0.9 and recompute its radius (floored at 2
        only for Down) and stage. True where the program raises. */
    method HandleKey(key: KeyPress, phys: Physics) returns (raised: bool)
      requires Valid()
      modifies this`paused, this`planets, this`selected, selected
      ensures Valid()
      ensures paused == (if key == SpaceKey then !old(paused) else old(paused))
      ensures key == DeleteKey && old(selected) != null ==>
                && (raised <==> old(selected) !in old(planets))
                && (raised ==> selected == old(selected) && planets == old(planets))
                && (!raised ==> selected == null && old(selected) !in planets
                                && planets == RemoveFirst(old(planets), old(selected)))
                && old(selected).State() == old(selected.State())
      ensures (key == UpKey || key == DownKey) && old(selected) != null && !paused ==>
                var p := old(selected);
                var m := old(p.mass) * (if key == UpKey then 1.1 else 0.9);
                && selected == p && planets == old(planets)
                && p.mass == m
                && (raised <==> phys.massRadius(m).None?)
                && (raised ==> p.radius == old(p.radius) && p.stage == old(p.stage) && p.color == old(p.color))
                && (!raised ==> p.radius == (if key == UpKey then phys.massRadius(m).value
                                             else Max(2, phys.massRadius(m).value))
                                && (p.stage, p.color) == Stages.UpdateStage(old(p.stage), old(p.color), m))
                && p.pos == old(p.pos) && p.vel == old(p.vel) && p.trail == old(p.trail)
      ensures key == SpaceKey || key == OtherKeyPress || old(selected) == null
              || ((key == UpKey || key == DownKey) && paused) ==>
                && !raised && selected == old(selected) && planets == old(planets)
                && (selected != null ==> selected.State() == old(selected.State()))
    {
      raised := false;
      if key == SpaceKey {
        paused := !paused;
      }
      if selected != null {
        if key == DeleteKey {
          raised := DeleteSelectedAsWritten();
        } else if key == UpKey && !paused {
          raised := selected.SetMass(selected.mass * 1.1, false, phys);
        } else if key == DownKey && !paused {
          raised := selected.SetMass(selected.mass * 0.9, true, phys);
        }
      }
    }

    /** The reset at the start of `load_scenario`: the list is emptied, the
        selection and the held body dropped, the camera put back at zoom 1
        over the screen centre, and the scenario name recorded. The preset
        bodies that follow are not part of this model. */
    method LoadScenarioReset(cam: Camera, name: string)
      requires Valid() && cam.Valid()
      modifies this`planets, this`selected, this`dragging, this`scenario, cam
      ensures Valid() && cam.Valid()
      ensures planets == [] && selected == null && dragging == null && scenario == name
      ensures cam.zoom == 1.0 && cam.offset == SCREEN_CENTER
      ensures cam.isPanning == old(cam.isPanning) && cam.panStart == old(cam.panStart)
      ensures dragPositions == old(dragPositions) && paused == old(paused)
    {
      planets := [];
      selected := null;
      dragging := null;
      cam.Reset();
      scenario := name;
    }

    /** The tick as the program runs it: every body of a copy of the list is
        updated in turn, including a body that an earlier update in the same
        tick absorbed; a body whose update raises is removed if it is still
        in the list, and the tick goes on. Each body of `faulted` has left
        the list and kept its trail. Every other body of the copy that is
        not held has been advanced once: its new position is appended to its
        old trail. */
    method TickAsWritten(phys: Physics) returns (faulted: set<Planet>)
      requires Valid()
      modifies this`planets, planets
      ensures Valid()
      ensures forall q :: q in planets ==> q in old(planets)
      ensures forall q :: q in old(planets) ==> q.mass >= old(q.mass)
      ensures forall q :: q in faulted ==> q in old(planets) && q !in planets
      ensures forall q :: q in old(planets) && q !in faulted && q != dragging ==> EndsTrail(q)
      ensures forall q :: q in faulted ==> q != dragging && q.trail == old(q.trail)
      ensures forall q :: q in old(planets) && q !in faulted && q != dragging ==>
                q.trail == Push(old(q.trail), q.pos, TRAIL_CAP)
      ensures dragging != null && dragging in old(planets) ==>
                && dragging.vel == Zero
                && dragging.pos == old(dragging.pos) && dragging.trail == old(dragging.trail)
    {
      faulted := {};
      var snapshot := planets;
      ghost var visited: set<Planet> := {};
      var k := 0;
      while k < |snapshot|
        invariant 0 <= k <= |snapshot|
        invariant NoDup(planets)
        invariant forall q :: q in planets ==> q in snapshot
        invariant NoDup(snapshot)
        invariant forall j :: 0 <= j < k ==> snapshot[j] in visited
        invariant forall j :: k <= j < |snapshot| ==> snapshot[j] !in visited
        invariant forall q :: q in visited ==> q in snapshot
        invariant faulted <= visited
        invariant forall q :: q in snapshot ==>
                    && q.mass >= old(q.mass) && |q.trail| <= TRAIL_CAP
                    && (q !in visited ==> q.trail == old(q.trail))
                    && (q in faulted ==> q !in planets && q != dragging && q.trail == old(q.trail))
                    && (q in visited && q !in faulted && q != dragging ==>
                          q.trail == Push(old(q.trail), q.pos, TRAIL_CAP))
                    && (q == dragging ==>
                          && q.pos == old(q.pos) && q.trail == old(q.trail)
                          && (q in visited ==> q.vel == Zero))
      {
        var p := snapshot[k];
        var raised := Visit(p, phys);
        if raised {
          faulted := faulted + {p};
        }
        visited := visited + {p};
        k := k + 1;
      }
    }

    /** The tick with absorbed bodies left out: a body that is no longer in the
        list when its turn comes is not updated. Apart from that it is
        `TickAsWritten`. Each body of `faulted` has left the list and kept
        its trail; every body left in the list that is not held has been
        advanced once, its new position appended to its old trail; and when
        `faulted` is empty, the list's total mass is the same after the tick
        as before. */
    method Tick(phys: Physics) returns (faulted: set<Planet>)
      requires Valid()
      modifies this`planets, planets
      ensures Valid()
      ensures forall q :: q in planets ==> q in old(planets)
      ensures forall q :: q in old(planets) ==> q.mass >= old(q.mass)
      ensures forall q :: q in faulted ==> q in old(planets) && q !in planets
      ensures forall q :: q in planets && q != dragging ==> EndsTrail(q)
      ensures forall q :: q in faulted ==> q != dragging && q.trail == old(q.trail)
      ensures forall q :: q in planets && q != dragging ==> q.trail == Push(old(q.trail), q.pos, TRAIL_CAP)
      ensures faulted == {} ==> TotalMass(planets) == old(TotalMass(planets))
      ensures dragging != null && dragging in planets ==>
                && dragging.vel == Zero
                && dragging.pos == old(dragging.pos) && dragging.trail == old(dragging.trail)
    {
      faulted := {};
      var snapshot := planets;
      ghost var visited: set<Planet> := {};
      ghost var total0 := TotalMass(planets);
      var k := 0;
      while k < |snapshot|
        invariant 0 <= k <= |snapshot|
        invariant NoDup(planets)
        invariant forall q :: q in planets ==> q in snapshot
        invariant NoDup(snapshot)
        invariant forall j :: 0 <= j < k ==> snapshot[j] in visited
        invariant forall j :: k <= j < |snapshot| ==> snapshot[j] !in visited
        invariant forall q :: q in visited ==> q in snapshot
        invariant faulted <= visited
        invariant forall q :: q in snapshot ==>
                    && q.mass >= old(q.mass) && |q.trail| <= TRAIL_CAP
                    && (q !in visited ==> q.trail == old(q.trail))
                    && (q in faulted ==> q !in planets && q != dragging && q.trail == old(q.trail))
                    && (q in visited && q in planets && q != dragging ==>
                          q.trail == Push(old(q.trail), q.pos, TRAIL_CAP))
                    && (q == dragging ==>
                          && q.pos == old(q.pos) && q.trail == old(q.trail)
                          && (q in visited && q in planets ==> q.vel == Zero))
        invariant faulted == {} ==> TotalMass(planets) == total0
      {
        var p := snapshot[k];
        ghost var mass0 := TotalMass(planets);
        var raised := VisitLive(p, phys);
        if raised {
          faulted := faulted + {p};
        } else {
          assert TotalMass(planets) == mass0;
        }
        visited := visited + {p};
        k := k + 1;
      }
    }

    /** One turn of the tick as written: `UpdateAny`, then the removal of
        the body if its update raised and it is still in the list. */
    method Visit(p: Planet, phys: Physics) returns (raised: bool)
      requires NoDup(planets)
      requires p.mass > 0.0
      requires forall q :: q in planets ==> q.mass > 0.0
      modifies this`planets, p
      ensures dragging == p ==> !raised && p.vel == Zero && p.pos == old(p.pos) && p.trail == old(p.trail)
      ensures dragging != p && !raised ==> EndsTrail(p)
      ensures dragging != p && !raised ==> p.trail == Push(old(p.trail), p.pos, TRAIL_CAP)
      ensures raised ==> p.trail == old(p.trail)
      ensures p.mass >= old(p.mass)
      ensures old(|p.trail|) <= TRAIL_CAP ==> |p.trail| <= TRAIL_CAP
      ensures forall q :: q in planets ==> q in old(planets)
      ensures NoDup(planets)
      ensures raised ==> p !in planets
    {
      raised := UpdateAny(p, phys);
      if raised && p in planets {
        RemoveFirstFacts(planets, p);
        planets := RemoveFirst(planets, p);
      }
    }

    /** One turn of the corrected tick: a body no longer in the list is
        passed over; otherwise `UpdateLive`, then the removal of the body if
        its update raised. */
    method VisitLive(p: Planet, phys: Physics) returns (raised: bool)
      requires NoDup(planets)
      requires p.mass > 0.0
      requires forall q :: q in planets ==> q.mass > 0.0
      modifies this`planets, p
      ensures p !in old(planets) ==> !raised && planets == old(planets) && p.State() == old(p.State())
      ensures p in old(planets) && dragging == p ==>
                !raised && p.vel == Zero && p.pos == old(p.pos) && p.trail == old(p.trail)
      ensures p in old(planets) && dragging != p && !raised ==> EndsTrail(p)
      ensures p in old(planets) && dragging != p && !raised ==> p.trail == Push(old(p.trail), p.pos, TRAIL_CAP)
      ensures raised ==> p.trail == old(p.trail)
      ensures p.mass >= old(p.mass)
      ensures old(|p.trail|) <= TRAIL_CAP ==> |p.trail| <= TRAIL_CAP
      ensures forall q :: q in planets ==> q in old(planets)
      ensures NoDup(planets)
      ensures p in old(planets) ==> (raised <==> p !in planets)
      ensures !raised ==> TotalMass(planets) == old(TotalMass(planets))
    {
      if p !in planets {
        return false;
      }
      raised := UpdateLive(p, phys);
      if raised {
        RemoveFirstFacts(planets, p);
        planets := RemoveFirst(planets, p);
      }
    }

    /** `p.update(planets)` for any body of the tick's copy, whether or not it
        is still in the list: `Planet.Update`'s outcome, read against this
        world. */
    method UpdateAny(p: Planet, phys: Physics) returns (raised: bool)
      requires NoDup(planets)
      requires p.mass > 0.0
      requires forall q :: q in planets ==> q.mass > 0.0
      modifies this`planets, p
      ensures dragging == p ==> !raised && planets == old(planets) && p.State() == old(p.State()).(vel := Zero)
      ensures dragging != p ==>
                var r := old(Scan(p, Scanning(p.State(), planets, 0, Zero, false), phys));
                && raised == r.raised
                && planets == r.live
                && p.State() == if r.raised then r.self else Advance(r.self, r.force)
      ensures dragging != p && !raised ==> EndsTrail(p)
      ensures dragging != p && !raised ==> p.trail == Push(old(p.trail), p.pos, TRAIL_CAP)
      ensures raised ==> p.trail == old(p.trail)
      ensures p.mass >= old(p.mass)
      ensures old(|p.trail|) <= TRAIL_CAP ==> |p.trail| <= TRAIL_CAP
      ensures forall q :: q in planets ==> q in old(planets)
      ensures NoDup(planets)
    {
      raised := p.Update(this, phys);
    }

    /** `p.update(planets)` for a body that is in the list: the outcome of
        `UpdateAny`, the body stays in the list, and if the update does not
        raise, the list's total mass is unchanged. */
    method UpdateLive(p: Planet, phys: Physics) returns (raised: bool)
      requires p in planets && NoDup(planets)
      requires p.mass > 0.0
      requires forall q :: q in planets ==> q.mass > 0.0
      modifies this`planets, p
      ensures dragging == p ==> !raised && planets == old(planets) && p.State() == old(p.State()).(vel := Zero)
      ensures dragging != p ==>
                var r := old(Scan(p, Scanning(p.State(), planets, 0, Zero, false), phys));
                && raised == r.raised
                && planets == r.live
                && p.State() == if r.raised then r.self else Advance(r.self, r.force)
      ensures dragging != p && !raised ==> EndsTrail(p)
      ensures dragging != p && !raised ==> p.trail == Push(old(p.trail), p.pos, TRAIL_CAP)
      ensures raised ==> p.trail == old(p.trail)
      ensures p.mass >= old(p.mass)
      ensures old(|p.trail|) <= TRAIL_CAP ==> |p.trail| <= TRAIL_CAP
      ensures forall q :: q in planets ==> q in old(planets)
      ensures NoDup(planets) && p in planets
      ensures !raised ==> TotalMass(planets) == old(TotalMass(planets))
    {
      ghost var live := planets;
      ghost var st := Scanning(p.State(), planets, 0, Zero, false);
      ghost var r := Scan(p, st, phys);
      TotalIsLiveMass(live, p);
      ScanConservesMass(p, st, phys);
      ghost var before := LiveMass(r.live, p, r.self.mass);
      ghost var unchangedList := LiveMass(live, p, p.mass);
      raised := UpdateAny(p, phys);
      TotalIsLiveMass(planets, p);
      if dragging == p {
        assert LiveMass(live, p, p.mass) == unchangedList;
      } else if !raised {
        assert LiveMass(r.live, p, r.self.mass) == before;
      }
    }
  }
}
